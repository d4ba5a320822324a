/** The byte-accounted LRU cache of discovery responses, and what any run of calls on it returns. */
module DiscoveryCache {
  import opened Options
  import opened Text

  type Positive = n: nat | 0 < n witness 1
  type Body = seq<bv8>

  const MAX_KEY_BYTES := 4096
  const MAX_LINKS := 128
  const MAX_LINK_BYTES := 16 * 1024
  const MAX_ETAG_BYTES := 512

  datatype Key = Key(installation: int, path: string, query: string)
  datatype Entry = Entry(body: Body, etag: string, links: seq<string>)
  datatype Slot = Slot(key: Key, entry: Entry, lastUsed: int, size: nat, compressed: bool)

  /** Compression, None on an encoder error; decompression, None unless the whole input is one stream. */
  datatype Codec = Codec(encode: Body -> Option<Body>, decode: Body -> Option<Body>)
  datatype Config = Config(
    maxBytes: Positive, maxEntryBytes: Positive, maxEntries: Positive, ttl: Positive, compress: bool, codec: Codec)

  /** The entries, least recently used first, and the bytes they are accounted for. */
  datatype Cache = Cache(slots: seq<Slot>, bytes: int)

  // ---- What may be stored -------------------------------------------------------------------

  predicate ValidKey(key: Key) {
    && key.installation > 0 && key.path != [] && key.path[0] == '/'
    && Utf8Length(key.path) + Utf8Length(key.query) <= MAX_KEY_BYTES
  }

  predicate Printable(c: char) {
    '\U{0020}' <= c < '\U{007F}'
  }

  /** A quoted tag, optionally weak. */
  predicate ValidEtag(etag: string) {
    var quoted := if "W/" <= etag then etag[2..] else etag;
    && |etag| <= MAX_ETAG_BYTES && |quoted| >= 2 && quoted[0] == '"' && quoted[|quoted| - 1] == '"'
    && forall i :: 0 < i < |quoted| - 1 ==> Printable(quoted[i]) && quoted[i] != '"'
  }

  function TotalLength(links: seq<string>): nat {
    if links == [] then 0 else |links[0]| + TotalLength(links[1..])
  }

  predicate ValidEntry(entry: Entry) {
    && ValidEtag(entry.etag) && |entry.links| <= MAX_LINKS && TotalLength(entry.links) <= MAX_LINK_BYTES
    && forall i, k :: 0 <= i < |entry.links| && 0 <= k < |entry.links[i]| ==> Printable(entry.links[i][k])
  }

  function Digits(n: nat): Positive {
    if n < 10 then 1 else 1 + Digits(n / 10)
  }

  function EntrySize(key: Key, entry: Entry): nat
    requires ValidKey(key)
  {
    Digits(key.installation) + Utf8Length(key.path) + Utf8Length(key.query)
    + |entry.body| + |entry.etag| + TotalLength(entry.links)
  }

  // ---- The calls as functions -----------------------------------------------------------------

  function Find(slots: seq<Slot>, key: Key): (r: Option<nat>)
    ensures r.Some? ==> r.value < |slots| && slots[r.value].key == key
    ensures r.None? ==> forall i :: 0 <= i < |slots| ==> slots[i].key != key
  {
    if slots == [] then None
    else if slots[0].key == key then Some(0)
    else match Find(slots[1..], key)
      case None => None
      case Some(i) => Some(i + 1)
  }

  function Without(cache: Cache, key: Key): Cache {
    match Find(cache.slots, key)
    case None => cache
    case Some(i) => Cache(cache.slots[..i] + cache.slots[i + 1..], cache.bytes - cache.slots[i].size)
  }

  datatype LookupResult = Hit(entry: Entry) | Absent | Expired | RejectedEncoding | LookupBadKey

  /** What a slot's entry reads back as. */
  function Decoded(config: Config, slot: Slot): Option<Entry> {
    if !slot.compressed then Some(slot.entry)
    else match config.codec.decode(slot.entry.body)
      case None => None
      case Some(body) =>
        if |body| > config.maxEntryBytes then None else Some(Entry(body, slot.entry.etag, slot.entry.links))
  }

  function Touched(slot: Slot, now: int): Slot {
    Slot(slot.key, slot.entry, now, slot.size, slot.compressed)
  }

  function LookupIn(config: Config, cache: Cache, key: Key, now: int): (Cache, LookupResult) {
    if !ValidKey(key) then (cache, LookupBadKey)
    else match Find(cache.slots, key)
      case None => (cache, Absent)
      case Some(i) =>
        var slot := cache.slots[i];
        if now - slot.lastUsed >= config.ttl then (Without(cache, key), Expired)
        else match Decoded(config, slot)
          case None => (Without(cache, key), RejectedEncoding)
          case Some(entry) =>
            (Cache(Without(cache, key).slots + [Touched(slot, now)], cache.bytes), Hit(entry))
  }

  /** The slot a call stores: compressed only when that is shorter. */
  function StoredSlot(config: Config, key: Key, entry: Entry, now: int): (r: Slot)
    requires ValidKey(key)
    ensures r.key == key && r.lastUsed == now && r.size <= EntrySize(key, entry)
  {
    var encoded := if config.compress then config.codec.encode(entry.body) else None;
    if encoded.Some? && |encoded.value| < |entry.body| then
      Slot(key, Entry(encoded.value, entry.etag, entry.links), now,
           EntrySize(key, entry) - (|entry.body| - |encoded.value|), true)
    else Slot(key, entry, now, EntrySize(key, entry), false)
  }

  function Sum(slots: seq<Slot>): nat {
    if slots == [] then 0 else slots[0].size + Sum(slots[1..])
  }

  predicate Fits(config: Config, slots: seq<Slot>) {
    |slots| <= config.maxEntries && Sum(slots) <= config.maxBytes
  }

  /** The longest most-recent suffix that fits. */
  function Retained(config: Config, slots: seq<Slot>): (r: seq<Slot>)
    ensures |r| <= |slots| && Fits(config, r)
  {
    if Fits(config, slots) then slots else Retained(config, slots[1..])
  }

  datatype PutResult = Stored | PutBadKey | RejectedMetadata | RejectedSize

  function Judge(config: Config, key: Key, entry: Entry): PutResult {
    if !ValidKey(key) then PutBadKey
    else if !ValidEntry(entry) then RejectedMetadata
    else if EntrySize(key, entry) > config.maxEntryBytes || EntrySize(key, entry) > config.maxBytes then RejectedSize
    else Stored
  }

  function PutIn(config: Config, cache: Cache, key: Key, entry: Entry, now: int): Cache {
    match Judge(config, key, entry)
    case PutBadKey => cache
    case RejectedMetadata => Without(cache, key)
    case RejectedSize => Without(cache, key)
    case Stored =>
      var slots := Retained(config, Without(cache, key).slots + [StoredSlot(config, key, entry, now)]);
      Cache(slots, Sum(slots))
  }

  // ---- What every call keeps --------------------------------------------------------------------

  ghost predicate DistinctKeys(slots: seq<Slot>) {
    forall i, j :: 0 <= i < j < |slots| ==> slots[i].key != slots[j].key
  }

  /** The accounted bytes are the stored sizes, both bounds hold, and a key is stored once. */
  ghost predicate Consistent(config: Config, cache: Cache) {
    cache.bytes == Sum(cache.slots) && Fits(config, cache.slots) && DistinctKeys(cache.slots)
  }

  lemma {:induction false} SumJoins(left: seq<Slot>, right: seq<Slot>)
    ensures Sum(left + right) == Sum(left) + Sum(right)
  {
    if left == [] {
      assert left + right == right;
    } else {
      SumJoins(left[1..], right);
      assert (left + right)[1..] == left[1..] + right;
    }
  }

  lemma SumSplits(slots: seq<Slot>, i: nat)
    requires i < |slots|
    ensures Sum(slots) == Sum(slots[..i] + slots[i + 1..]) + slots[i].size
  {
    SumJoins(slots[..i], slots[i + 1..]);
    SumJoins(slots[..i], slots[i..]);
    assert slots[..i] + slots[i..] == slots && slots[i..][1..] == slots[i + 1..];
  }

  ghost predicate HasKey(slots: seq<Slot>, key: Key) {
    exists i :: 0 <= i < |slots| && slots[i].key == key
  }

  lemma WithoutKeeps(config: Config, cache: Cache, key: Key)
    requires Consistent(config, cache)
    ensures Consistent(config, Without(cache, key)) && !HasKey(Without(cache, key).slots, key)
    ensures forall slot :: slot in Without(cache, key).slots <==> slot in cache.slots && slot.key != key
  {
    var found := Find(cache.slots, key);
    if found.Some? { SumSplits(cache.slots, found.value); }
  }

  lemma AppendKeepsKeys(slots: seq<Slot>, slot: Slot)
    requires DistinctKeys(slots) && !HasKey(slots, slot.key)
    ensures DistinctKeys(slots + [slot])
  {
  }

  lemma {:induction false} RetainedIsSuffix(config: Config, slots: seq<Slot>)
    ensures Retained(config, slots) == slots[|slots| - |Retained(config, slots)|..]
  {
    if !Fits(config, slots) {
      RetainedIsSuffix(config, slots[1..]);
      var n := |slots| - |Retained(config, slots)|;
      assert slots[1..][n - 1..] == slots[n..];
    }
  }

  /** No more is dropped than needed: any longer suffix would not fit. */
  lemma {:induction false} RetainedIsLongest(config: Config, slots: seq<Slot>, k: nat)
    requires k < |slots| - |Retained(config, slots)|
    ensures !Fits(config, slots[k..])
  {
    if k == 0 {
      assert slots[0..] == slots;
    } else {
      RetainedIsLongest(config, slots[1..], k - 1);
      assert slots[1..][k - 1..] == slots[k..];
    }
  }

  /** The entry being stored is never the one evicted. */
  lemma {:induction false} RetainedKeepsLast(config: Config, slots: seq<Slot>)
    requires slots != [] && slots[|slots| - 1].size <= config.maxBytes
    ensures var r := Retained(config, slots); r != [] && r[|r| - 1] == slots[|slots| - 1]
  {
    if !Fits(config, slots) && |slots| > 1 { RetainedKeepsLast(config, slots[1..]); }
  }

  lemma RetainedKeepsKeys(config: Config, slots: seq<Slot>)
    requires DistinctKeys(slots)
    ensures DistinctKeys(Retained(config, slots))
    ensures forall slot :: slot in Retained(config, slots) ==> slot in slots
  {
    RetainedIsSuffix(config, slots);
    var n := |slots| - |Retained(config, slots)|;
    assert forall i :: 0 <= i < |Retained(config, slots)| ==> Retained(config, slots)[i] == slots[n + i];
  }

  /** Storing keeps the cache consistent, and the stored entry is the most recent one. */
  lemma StoreKeeps(config: Config, cache: Cache, slot: Slot)
    requires Consistent(config, cache) && !HasKey(cache.slots, slot.key) && slot.size <= config.maxBytes
    ensures var slots := Retained(config, cache.slots + [slot]);
            Consistent(config, Cache(slots, Sum(slots))) && slots != [] && slots[|slots| - 1] == slot
  {
    AppendKeepsKeys(cache.slots, slot);
    RetainedKeepsKeys(config, cache.slots + [slot]);
    RetainedKeepsLast(config, cache.slots + [slot]);
  }

  lemma PutKeeps(config: Config, cache: Cache, key: Key, entry: Entry, now: int)
    requires Consistent(config, cache)
    ensures Consistent(config, PutIn(config, cache, key, entry, now))
    ensures Judge(config, key, entry).Stored? ==>
              var slots := PutIn(config, cache, key, entry, now).slots;
              slots != [] && slots[|slots| - 1] == StoredSlot(config, key, entry, now)
  {
    WithoutKeeps(config, cache, key);
    if Judge(config, key, entry).Stored? {
      StoreKeeps(config, Without(cache, key), StoredSlot(config, key, entry, now));
    }
  }

  lemma TouchKeeps(config: Config, cache: Cache, i: nat, now: int)
    requires Consistent(config, cache) && i < |cache.slots|
    requires Find(cache.slots, cache.slots[i].key) == Some(i)
    ensures Consistent(config, Cache(Without(cache, cache.slots[i].key).slots + [Touched(cache.slots[i], now)], cache.bytes))
  {
    var slot, rest := cache.slots[i], Without(cache, cache.slots[i].key);
    WithoutKeeps(config, cache, slot.key);
    SumSplits(cache.slots, i);
    SumJoins(rest.slots, [Touched(slot, now)]);
    assert Sum([Touched(slot, now)]) == slot.size;
    AppendKeepsKeys(rest.slots, Touched(slot, now));
  }

  lemma LookupKeeps(config: Config, cache: Cache, key: Key, now: int)
    requires Consistent(config, cache)
    ensures Consistent(config, LookupIn(config, cache, key, now).0)
  {
    WithoutKeeps(config, cache, key);
    var found := Find(cache.slots, key);
    if found.Some? { TouchKeeps(config, cache, found.value, now); }
  }

  // ---- The cache object --------------------------------------------------------------------------

  class ResponseCache {
    const config: Config
    var slots: seq<Slot>
    var bytes: int

    ghost predicate Valid()
      reads this
    {
      Consistent(config, State())
    }

    function State(): Cache
      reads this
    {
      Cache(slots, bytes)
    }

    constructor (config: Config)
      ensures Valid() && this.config == config && State() == Cache([], 0)
    {
      this.config := config;
      slots, bytes := [], 0;
    }

    method Discard(key: Key)
      modifies this`slots, this`bytes
      ensures State() == Without(old(State()), key)
    {
      var found := Find(slots, key);
      if found.Some? {
        bytes := bytes - slots[found.value].size;
        slots := slots[..found.value] + slots[found.value + 1..];
      }
    }

    method Remove(key: Key) returns (ok: bool)
      requires Valid()
      modifies this`slots, this`bytes
      ensures Valid() && ok == ValidKey(key) && State() == if ok then Without(old(State()), key) else old(State())
      ensures State() == Step(config, old(State()), RemoveCall(key))
    {
      ok := ValidKey(key);
      WithoutKeeps(config, State(), key);
      if ok { Discard(key); }
    }

    method Lookup(key: Key, now: int) returns (result: LookupResult)
      requires Valid()
      modifies this`slots, this`bytes
      ensures Valid() && (State(), result) == LookupIn(config, old(State()), key, now)
      ensures State() == Step(config, old(State()), LookupCall(key, now))
      ensures result.Hit? ==> slots != [] && slots[|slots| - 1].key == key && slots[|slots| - 1].lastUsed == now
      ensures !result.Hit? && !result.LookupBadKey? ==> !HasKey(slots, key)
    {
      LookupKeeps(config, State(), key, now);
      if !ValidKey(key) { return LookupBadKey; }
      var found := Find(slots, key);
      if found.None? { return Absent; }
      var slot := slots[found.value];
      if now - slot.lastUsed >= config.ttl {
        Discard(key);
        return Expired;
      }
      var entry := Decoded(config, slot);
      if entry.None? {
        Discard(key);
        return RejectedEncoding;
      }
      slots := slots[..found.value] + slots[found.value + 1..] + [Touched(slot, now)];
      result := Hit(entry.value);
    }

    method Put(key: Key, entry: Entry, now: int) returns (result: PutResult)
      requires Valid()
      modifies this`slots, this`bytes
      ensures Valid() && result == Judge(config, key, entry)
      ensures State() == PutIn(config, old(State()), key, entry, now) == Step(config, old(State()), PutCall(key, entry, now))
      ensures result.Stored? ==> slots != [] && slots[|slots| - 1].key == key && slots[|slots| - 1].lastUsed == now
      ensures !result.Stored? && !result.PutBadKey? ==> !HasKey(slots, key)
    {
      PutKeeps(config, State(), key, entry, now);
      WithoutKeeps(config, State(), key);
      result := Judge(config, key, entry);
      if result.PutBadKey? { return; }
      Discard(key);
      if !result.Stored? { return; }
      var slot := StoredSlot(config, key, entry, now);
      SumJoins(slots, [slot]);
      slots, bytes := slots + [slot], bytes + slot.size;
      assert Sum([slot]) == slot.size;
      Evict();
    }

    /** The eviction loop: the oldest entry goes until both bounds hold. */
    method Evict()
      requires bytes == Sum(slots)
      modifies this`slots, this`bytes
      ensures slots == Retained(config, old(slots)) && bytes == Sum(slots)
    {
      while |slots| > config.maxEntries || bytes > config.maxBytes
        invariant bytes == Sum(slots) && Retained(config, slots) == Retained(config, old(slots))
        decreases |slots|
      {
        assert slots != [];
        slots, bytes := slots[1..], bytes - slots[0].size;
      }
    }
  }

  // ---- Every run ------------------------------------------------------------------------------------

  datatype Call = LookupCall(key: Key, now: int) | PutCall(key: Key, entry: Entry, now: int) | RemoveCall(key: Key)

  function Step(config: Config, cache: Cache, call: Call): Cache {
    match call
    case LookupCall(key, now) => LookupIn(config, cache, key, now).0
    case PutCall(key, entry, now) => PutIn(config, cache, key, entry, now)
    case RemoveCall(key) => if ValidKey(key) then Without(cache, key) else cache
  }

  function Run(config: Config, calls: seq<Call>): Cache {
    if calls == [] then Cache([], 0) else Step(config, Run(config, calls[..|calls| - 1]), calls[|calls| - 1])
  }

  /** What the last call that wrote a key left there: an accepted entry, or nothing after a removal or a rejection. */
  function LastWrite(config: Config, calls: seq<Call>, key: Key): Option<Entry> {
    if calls == [] then None
    else
      var call, before := calls[|calls| - 1], LastWrite(config, calls[..|calls| - 1], key);
      if call.key != key || !ValidKey(key) || call.LookupCall? then before
      else if call.PutCall? && Judge(config, key, call.entry).Stored? then Some(call.entry)
      else None
  }

  ghost predicate Lossless(codec: Codec) {
    forall body :: codec.encode(body).Some? ==> codec.decode(codec.encode(body).value) == Some(body)
  }

  ghost predicate HoldsWrite(config: Config, calls: seq<Call>, slot: Slot) {
    var written := LastWrite(config, calls, slot.key);
    written.Some? && Decoded(config, slot) == written
  }

  ghost predicate HoldsWrites(config: Config, calls: seq<Call>, cache: Cache) {
    forall slot :: slot in cache.slots ==> HoldsWrite(config, calls, slot)
  }

  lemma StoredReadsBack(config: Config, key: Key, entry: Entry, now: int)
    requires Lossless(config.codec) && Judge(config, key, entry).Stored?
    ensures Decoded(config, StoredSlot(config, key, entry, now)) == Some(entry)
  {
  }

  lemma WithoutHolds(config: Config, calls: seq<Call>, cache: Cache, call: Call)
    requires Consistent(config, cache) && HoldsWrites(config, calls, cache)
    ensures HoldsWrites(config, calls + [call], Without(cache, call.key))
  {
    WithoutKeeps(config, cache, call.key);
    assert (calls + [call])[..|calls|] == calls;
    forall slot | slot in Without(cache, call.key).slots ensures HoldsWrite(config, calls + [call], slot) {
      assert HoldsWrite(config, calls, slot);
    }
  }

  lemma UntouchedHolds(config: Config, calls: seq<Call>, cache: Cache, call: Call)
    requires HoldsWrites(config, calls, cache) && (call.LookupCall? || !ValidKey(call.key))
    ensures HoldsWrites(config, calls + [call], cache)
  {
    assert (calls + [call])[..|calls|] == calls;
    forall slot | slot in cache.slots ensures HoldsWrite(config, calls + [call], slot) {
      assert HoldsWrite(config, calls, slot);
    }
  }

  lemma PutHolds(config: Config, calls: seq<Call>, cache: Cache, key: Key, entry: Entry, now: int)
    requires Lossless(config.codec) && Consistent(config, cache) && HoldsWrites(config, calls, cache)
    ensures HoldsWrites(config, calls + [PutCall(key, entry, now)], PutIn(config, cache, key, entry, now))
  {
    var call := PutCall(key, entry, now);
    if !ValidKey(key) {
      UntouchedHolds(config, calls, cache, call);
    } else {
      WithoutHolds(config, calls, cache, call);
      if Judge(config, key, entry).Stored? {
        var rest, slot := Without(cache, key), StoredSlot(config, key, entry, now);
        StoredReadsBack(config, key, entry, now);
        assert (calls + [call])[..|calls|] == calls;
        assert HoldsWrite(config, calls + [call], slot);
        WithoutKeeps(config, cache, key);
        AppendKeepsKeys(rest.slots, slot);
        RetainedKeepsKeys(config, rest.slots + [slot]);
      }
    }
  }

  lemma LookupHolds(config: Config, calls: seq<Call>, cache: Cache, key: Key, now: int)
    requires Consistent(config, cache) && HoldsWrites(config, calls, cache)
    ensures HoldsWrites(config, calls + [LookupCall(key, now)], LookupIn(config, cache, key, now).0)
  {
    var call := LookupCall(key, now);
    UntouchedHolds(config, calls, cache, call);
    WithoutHolds(config, calls, cache, call);
    var found := Find(cache.slots, key);
    if found.Some? {
      var slot := cache.slots[found.value];
      assert HoldsWrite(config, calls + [call], slot);
      assert HoldsWrite(config, calls + [call], Touched(slot, now));
    }
  }

  lemma {:induction false} RunsHold(config: Config, calls: seq<Call>)
    requires Lossless(config.codec)
    ensures Consistent(config, Run(config, calls)) && HoldsWrites(config, calls, Run(config, calls))
  {
    if calls != [] {
      var before, call := calls[..|calls| - 1], calls[|calls| - 1];
      var cache := Run(config, before);
      RunsHold(config, before);
      assert before + [call] == calls;
      match call {
        case LookupCall(key, now) =>
          LookupKeeps(config, cache, key, now);
          LookupHolds(config, before, cache, key, now);
        case PutCall(key, entry, now) =>
          PutKeeps(config, cache, key, entry, now);
          PutHolds(config, before, cache, key, entry, now);
        case RemoveCall(key) =>
          WithoutKeeps(config, cache, key);
          WithoutHolds(config, before, cache, call);
          if !ValidKey(key) { UntouchedHolds(config, before, cache, call); }
      }
    }
  }

  /** After any calls, a hit is exactly the last entry stored under its key, and no stored encoding is rejected. */
  lemma HitsAreLastWrites(config: Config, calls: seq<Call>, key: Key, now: int)
    requires Lossless(config.codec)
    ensures var result := LookupIn(config, Run(config, calls), key, now).1;
            && (result.Hit? ==> LastWrite(config, calls, key) == Some(result.entry))
            && !result.RejectedEncoding?
  {
    RunsHold(config, calls);
    var cache := Run(config, calls);
    var found := Find(cache.slots, key);
    if found.Some? { assert HoldsWrite(config, calls, cache.slots[found.value]); }
  }

  /** An accepted entry is there for the next lookup until its idle lifetime ends. */
  lemma PutThenLookup(config: Config, cache: Cache, key: Key, entry: Entry, now: int, later: int)
    requires Lossless(config.codec) && Consistent(config, cache) && Judge(config, key, entry).Stored?
    ensures LookupIn(config, PutIn(config, cache, key, entry, now), key, later).1 ==
              if later - now >= config.ttl then Expired else Hit(entry)
  {
    PutKeeps(config, cache, key, entry, now);
    StoredReadsBack(config, key, entry, now);
    var slots := PutIn(config, cache, key, entry, now).slots;
    var found := Find(slots, key);
    assert slots[|slots| - 1].key == key;
    assert found.Some? && found.value == |slots| - 1;
  }

  /** After any run of calls an accepted entry is the very next lookup's answer. */
  lemma PutIsNextHit(config: Config, calls: seq<Call>, key: Key, entry: Entry, now: int)
    requires Lossless(config.codec) && Judge(config, key, entry).Stored?
    ensures LookupIn(config, Run(config, calls + [PutCall(key, entry, now)]), key, now).1 == Hit(entry)
  {
    var call := PutCall(key, entry, now);
    assert (calls + [call])[..|calls|] == calls;
    RunsHold(config, calls);
    PutThenLookup(config, Run(config, calls), key, entry, now, now);
  }

  // ---- What is accepted, and how it is stored ------------------------------------------------------

  /** An opaque tag in quotes, marked weak or not. */
  predicate WellFormedEtag(etag: string, weak: bool, tag: string) {
    && etag == (if weak then "W/" else "") + "\"" + tag + "\""
    && forall i :: 0 <= i < |tag| ==> ' ' <= tag[i] <= '~' && tag[i] != '"'
  }

  lemma QuotedTag(quoted: string, tag: string)
    requires quoted == "\"" + tag + "\""
    ensures forall i :: 0 <= i < |tag| ==> quoted[i + 1] == tag[i]
    ensures (forall i :: 0 < i < |quoted| - 1 ==> Printable(quoted[i]) && quoted[i] != '"') <==>
            (forall i :: 0 <= i < |tag| ==> ' ' <= tag[i] <= '~' && tag[i] != '"')
  {
    if forall i :: 0 < i < |quoted| - 1 ==> Printable(quoted[i]) && quoted[i] != '"' {
      forall i | 0 <= i < |tag| ensures ' ' <= tag[i] <= '~' && tag[i] != '"' { assert quoted[i + 1] == tag[i]; }
    }
  }

  lemma Requoted(quoted: string)
    requires |quoted| >= 2 && quoted[0] == '"' && quoted[|quoted| - 1] == '"'
    ensures quoted == "\"" + quoted[1..|quoted| - 1] + "\""
  {
  }

  lemma ValidIsWellFormed(etag: string) returns (weak: bool, tag: string)
    requires ValidEtag(etag)
    ensures WellFormedEtag(etag, weak, tag)
  {
    weak := "W/" <= etag;
    var quoted := if weak then etag[2..] else etag;
    tag := quoted[1..|quoted| - 1];
    Requoted(quoted);
    QuotedTag(quoted, tag);
    if weak { Unweak(etag); }
  }

  lemma Unweak(etag: string)
    requires "W/" <= etag
    ensures etag == "W/" + etag[2..]
  {
  }

  lemma WellFormedIsValid(etag: string, weak: bool, tag: string)
    requires WellFormedEtag(etag, weak, tag) && |etag| <= 512
    ensures ValidEtag(etag)
  {
    var quoted := "\"" + tag + "\"";
    QuotedTag(quoted, tag);
    assert etag == (if weak then "W/" else "") + quoted;
    if weak { assert "W/" <= etag && etag[2..] == quoted; } else { assert etag[0] == '"' && etag == quoted; }
  }

  lemma EtagExactly(etag: string)
    ensures ValidEtag(etag) <==> |etag| <= 512 && exists weak: bool, tag: string :: WellFormedEtag(etag, weak, tag)
  {
    if ValidEtag(etag) { var weak, tag := ValidIsWellFormed(etag); }
    if |etag| <= 512 {
      if weak: bool, tag: string :| WellFormedEtag(etag, weak, tag) { WellFormedIsValid(etag, weak, tag); }
    }
  }

  function Joined(links: seq<string>): string {
    if links == [] then [] else links[0] + Joined(links[1..])
  }

  lemma {:induction false} TotalIsJoined(links: seq<string>)
    ensures TotalLength(links) == |Joined(links)|
  {
    if links != [] { TotalIsJoined(links[1..]); }
  }

  /** Exactly what is stored: bounded rooted keys, bounded printable metadata, and a size within both bounds. */
  lemma StoredExactly(config: Config, key: Key, entry: Entry)
    ensures Judge(config, key, entry).Stored? <==>
              && key.installation > 0 && "/" <= key.path && Utf8Length(key.path) + Utf8Length(key.query) <= 4096
              && |entry.etag| <= 512 && (exists weak: bool, tag: string :: WellFormedEtag(entry.etag, weak, tag))
              && |entry.links| <= 128 && |Joined(entry.links)| <= 16384
              && (forall link, i :: link in entry.links && 0 <= i < |link| ==> ' ' <= link[i] <= '~')
              && EntrySize(key, entry) <= config.maxEntryBytes && EntrySize(key, entry) <= config.maxBytes
  {
    EtagExactly(entry.etag);
    TotalIsJoined(entry.links);
    assert "/" <= key.path <==> key.path != [] && key.path[0] == '/';
    if forall link, i :: link in entry.links && 0 <= i < |link| ==> ' ' <= link[i] <= '~' {
      forall i, k | 0 <= i < |entry.links| && 0 <= k < |entry.links[i]| ensures Printable(entry.links[i][k]) {
        assert entry.links[i] in entry.links;
      }
    }
  }

  /** Compression is used exactly where it is configured, succeeds and is shorter; the slot is charged what it holds. */
  lemma CompressesExactly(config: Config, key: Key, entry: Entry, now: int)
    requires ValidKey(key)
    ensures var slot := StoredSlot(config, key, entry, now);
            && (slot.compressed <==>
                  config.compress && config.codec.encode(entry.body).Some?
                  && |config.codec.encode(entry.body).value| < |entry.body|)
            && slot.entry.body == (if slot.compressed then config.codec.encode(entry.body).value else entry.body)
            && slot.entry.etag == entry.etag && slot.entry.links == entry.links
            && slot.size == EntrySize(key, slot.entry)
  {
  }

  /** A compressed entry that decodes to more than the bound, or not at all, is dropped rather than returned. */
  lemma OversizedIsRejected(config: Config, cache: Cache, key: Key, now: int, i: nat)
    requires Consistent(config, cache) && ValidKey(key) && Find(cache.slots, key) == Some(i) && cache.slots[i].compressed
    requires now - cache.slots[i].lastUsed < config.ttl
    ensures var decoded := config.codec.decode(cache.slots[i].entry.body);
            var (after, result) := LookupIn(config, cache, key, now);
            (result == RejectedEncoding <==> decoded.None? || |decoded.value| > config.maxEntryBytes)
            && (result == RejectedEncoding ==> !HasKey(after.slots, key))
  {
    WithoutKeeps(config, cache, key);
  }

  // ---- Recency ------------------------------------------------------------------------------------------

  /** The slots of every other key, in the order they were. */
  function Others(slots: seq<Slot>, key: Key): seq<Slot> {
    if slots == [] then []
    else (if slots[0].key == key then [] else [slots[0]]) + Others(slots[1..], key)
  }

  lemma {:induction false} OthersKeepsAll(slots: seq<Slot>, key: Key)
    requires forall i :: 0 <= i < |slots| ==> slots[i].key != key
    ensures Others(slots, key) == slots
  {
    if slots != [] { OthersKeepsAll(slots[1..], key); }
  }

  lemma {:induction false} OthersSkipsOne(slots: seq<Slot>, key: Key, i: nat)
    requires DistinctKeys(slots) && i < |slots| && slots[i].key == key
    ensures Others(slots, key) == slots[..i] + slots[i + 1..]
  {
    if i == 0 {
      OthersKeepsAll(slots[1..], key);
      assert Others(slots, key) == [] + Others(slots[1..], key);
    } else {
      OthersSkipsOne(slots[1..], key, i - 1);
      assert slots[1..][..i - 1] == slots[1..i] && slots[1..][i..] == slots[i + 1..];
      assert slots[..i] == [slots[0]] + slots[1..i];
    }
  }

  /** Every call leaves the other keys in order: a hit and a put move their key to the most recent end. */
  lemma RecencyIsKept(config: Config, cache: Cache, key: Key, entry: Entry, now: int)
    requires Consistent(config, cache)
    ensures Without(cache, key).slots == Others(cache.slots, key)
    ensures var (after, result) := LookupIn(config, cache, key, now);
            match result
            case Hit(_) => |after.slots| > 0 && after.slots == Others(cache.slots, key) + [after.slots[|after.slots| - 1]]
            case LookupBadKey => after == cache
            case _ => after.slots == Others(cache.slots, key)
    ensures Judge(config, key, entry).Stored? ==>
              var all := Others(cache.slots, key) + [StoredSlot(config, key, entry, now)];
              exists n :: 0 <= n <= |all| && PutIn(config, cache, key, entry, now).slots == all[n..]
  {
    var found := Find(cache.slots, key);
    if found.Some? { OthersSkipsOne(cache.slots, key, found.value); } else { OthersKeepsAll(cache.slots, key); }
    if Judge(config, key, entry).Stored? {
      var all := Others(cache.slots, key) + [StoredSlot(config, key, entry, now)];
      RetainedIsSuffix(config, all);
      assert PutIn(config, cache, key, entry, now).slots == all[|all| - |Retained(config, all)|..];
    }
  }
}
