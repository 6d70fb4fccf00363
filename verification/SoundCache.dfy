/** The bounded, least-recently-used cache of decoded sounds. */
module SoundCaching {
  import opened Sequences
  import opened Wrappers
  import Text

  const USIZE_MAX: nat := 0xFFFF_FFFF_FFFF_FFFF
  const MAX_CACHE_BYTES: nat := 32 * 1024 * 1024
  const MAX_CACHE_ENTRIES: nat := 512

  /** The largest buffer there can be, in bytes: a decoded file has at most one
      32-bit sample for each of 64 MiB of data, and a joined sentence at most
      4,194,304 frames of two channels. */
  const LARGEST_BUFFER: nat := 4 * 64 * 1024 * 1024

  // ---- Sounds and where they come from ----

  datatype Buffer = Buffer(samples: seq<real>, channels: nat) {
    function FrameCount(): nat {
      if channels == 0 then 0
      else (if |samples| > 0xFFFF_FFFF then 0xFFFF_FFFF else |samples|) / channels
    }

    function ByteLength(): nat {
      4 * |samples|
    }
  }

  /** The installed files, the decoder and the joiner, none of which the cache
      looks into. */
  datatype Source = Source(
    read: string -> Option<seq<bv8>>,
    decode: seq<bv8> -> Option<Buffer>,
    concatenate: seq<Buffer> -> Option<Buffer>)

  /** What the decoder and the joiner promise: no buffer is larger than
      `largest` bytes, and nothing is joined from no parts. */
  ghost predicate Lawful(source: Source, largest: nat) {
    && (forall bytes | source.decode(bytes).Some? :: source.decode(bytes).value.ByteLength() <= largest)
    && (forall parts | source.concatenate(parts).Some? ::
          parts != [] && source.concatenate(parts).value.ByteLength() <= largest)
  }

  datatype Asset = Unresolved | File(path: string) | Sentence(words: seq<string>)

  type Entry = Option<Buffer>

  /** One decoded file, when it exists, decodes and has frames. */
  function DecodedFile(source: Source, path: string): Entry {
    match source.read(path)
    case None => None
    case Some(bytes) =>
      match source.decode(bytes)
      case None => None
      case Some(buffer) => if buffer.FrameCount() > 0 then Some(buffer) else None
  }

  /** The playable words of a sentence; the others are skipped. */
  function Parts(source: Source, words: seq<string>): seq<Buffer> {
    if words == [] then []
    else
      (match DecodedFile(source, words[0]) case None => [] case Some(b) => [b]) + Parts(source, words[1..])
  }

  /** What reading and decoding an asset afresh gives. */
  function Decoded(source: Source, asset: Asset): Entry {
    match asset
    case Unresolved => None
    case File(path) => DecodedFile(source, path)
    case Sentence(words) => source.concatenate(Parts(source, words))
  }

  function Size(entry: Entry): nat {
    match entry case None => 0 case Some(buffer) => buffer.ByteLength()
  }

  /** The answer without a cache; an asset larger than the whole cache counts
      as nothing to play. */
  function Uncached(source: Source, maxBytes: nat, asset: Asset): Entry {
    var decoded := Decoded(source, asset);
    if Size(decoded) > maxBytes then None else decoded
  }

  // ---- Keys ----

  function JoinedWords(words: seq<string>): string {
    if words == [] then "" else "\n" + words[0] + JoinedWords(words[1..])
  }

  function SentenceKey(words: seq<string>): string {
    "!" + JoinedWords(words)
  }

  function Key(asset: Asset): string
    requires !asset.Unresolved?
  {
    match asset
    case File(path) => path
    case Sentence(words) => SentenceKey(words)
  }

  ghost predicate OneLine(s: string) {
    forall i | 0 <= i < |s| :: s[i] != '\n'
  }

  /** What the asset path policy guarantees, and the one path it does not
      exclude: the key of the empty sentence. */
  ghost predicate WellNamed(asset: Asset) {
    match asset
    case Unresolved => true
    case File(path) => OneLine(path) && path != "!"
    case Sentence(words) => forall w | w in words :: OneLine(w)
  }

  lemma BreakAfter(a: string, x: string)
    requires OneLine(a) && (x == "" || x[0] == '\n')
    ensures Text.IndexOf(a + x, '\n') == |a|
  {
    assert forall i | 0 <= i < |a| :: (a + x)[i] == a[i];
    assert x != "" ==> (a + x)[|a|] == '\n';
  }

  lemma SplitAtBreak(a: string, b: string, x: string, y: string)
    requires OneLine(a) && OneLine(b)
    requires x == "" || x[0] == '\n'
    requires y == "" || y[0] == '\n'
    requires a + x == b + y
    ensures a == b && x == y
  {
    BreakAfter(a, x);
    BreakAfter(b, y);
    assert a == (a + x)[..|a|] == (b + y)[..|b|];
    assert x == (a + x)[|a|..] == (b + y)[|b|..];
  }

  lemma {:induction false} JoinedWordsInjective(a: seq<string>, b: seq<string>)
    requires forall w | w in a :: OneLine(w)
    requires forall w | w in b :: OneLine(w)
    requires JoinedWords(a) == JoinedWords(b)
    ensures a == b
  {
    if a == [] || b == [] {
    } else {
      var x, y := JoinedWords(a[1..]), JoinedWords(b[1..]);
      assert JoinedWords(a)[1..] == a[0] + x;
      assert JoinedWords(b)[1..] == b[0] + y;
      SplitAtBreak(a[0], b[0], x, y);
      JoinedWordsInjective(a[1..], b[1..]);
    }
  }

  /** Different well-named assets have different keys. */
  lemma KeysAreInjective(a: Asset, b: Asset)
    requires !a.Unresolved? && !b.Unresolved?
    requires WellNamed(a) && WellNamed(b) && Key(a) == Key(b)
    ensures a == b
  {
    match (a, b)
    case (Sentence(v), Sentence(w)) =>
      assert JoinedWords(v) == SentenceKey(v)[1..] && JoinedWords(w) == SentenceKey(w)[1..];
      JoinedWordsInjective(v, w);
    case (File(p), Sentence(w)) => FileIsNoSentence(p, w);
    case (Sentence(w), File(p)) => FileIsNoSentence(p, w);
    case _ =>
  }

  lemma FileIsNoSentence(path: string, words: seq<string>)
    requires OneLine(path) && path != "!"
    ensures path != SentenceKey(words)
  {
    if words != [] {
      assert SentenceKey(words)[1] == '\n';
    }
  }

  // ---- The cache as a value ----

  datatype Cache = Cache(
    entries: map<string, Entry>,
    order: seq<string>,
    bytes: nat,
    maxBytes: nat,
    maxEntries: nat)

  /** `order` with the first occurrence of `key` moved to the end. */
  function MovedToEnd(order: seq<string>, key: string): seq<string> {
    var i := IndexIn(order, key);
    if i == |order| then order else order[..i] + order[i + 1..] + [key]
  }

  function SaturatingAdd(x: nat, y: nat): nat {
    if x + y > USIZE_MAX then USIZE_MAX else x + y
  }

  function SaturatingSub(x: nat, y: nat): nat {
    if x < y then 0 else x - y
  }

  predicate Overfull(c: Cache) {
    |c.entries| > c.maxEntries || c.bytes > c.maxBytes
  }

  function WithoutOldest(c: Cache): Cache
    requires c.order != []
  {
    var oldest := c.order[0];
    if oldest in c.entries then
      c.(order := c.order[1..], entries := c.entries - {oldest},
         bytes := SaturatingSub(c.bytes, Size(c.entries[oldest])))
    else c.(order := c.order[1..])
  }

  function Evicted(c: Cache): Cache
    decreases |c.order|
  {
    if Overfull(c) && c.order != [] then Evicted(WithoutOldest(c)) else c
  }

  /** An entry put in under a key that is not held, before eviction. */
  function Placed(c: Cache, key: string, entry: Entry): Cache {
    c.(bytes := SaturatingAdd(c.bytes, Size(entry)),
       entries := c.entries[key := entry],
       order := c.order + [key])
  }

  /** The cache after answering for `asset`, and the answer. */
  function Resolved(c: Cache, source: Source, asset: Asset): (Cache, Entry) {
    if asset.Unresolved? then (c, None)
    else
      var key := Key(asset);
      if key in c.entries then (c.(order := MovedToEnd(c.order, key)), c.entries[key])
      else
        var entry := Uncached(source, c.maxBytes, asset);
        (Evicted(Placed(c, key, entry)), entry)
  }

  /** A file plays exactly when it is there, decodes, and has a frame: one
      sample for each of its channels. */
  lemma FilePlaysIff(source: Source, path: string, b: Buffer)
    ensures DecodedFile(source, path) == Some(b) <==>
              && source.read(path).Some? && source.decode(source.read(path).value) == Some(b)
              && 0 < b.channels <= |b.samples| && b.channels <= 0xFFFF_FFFF
  {
    var n := if |b.samples| > 0xFFFF_FFFF then 0xFFFF_FFFF else |b.samples|;
    if b.channels > 0 {
      FramesIff(n, b.channels);
    }
  }

  lemma FramesIff(n: nat, channels: nat)
    requires channels > 0
    ensures n / channels > 0 <==> channels <= n
  {
  }

  /** A sample is four bytes, so that the largest decoded file is the largest
      buffer. */
  lemma SamplesAreFourBytes(b: Buffer)
    ensures b.ByteLength() <= LARGEST_BUFFER <==> |b.samples| <= 64 * 1024 * 1024
    ensures b.ByteLength() % 4 == 0
  {
  }

  /** A sum that does not fit stays at the largest value, so that the cache is
      overfull and not empty. */
  lemma SumsSaturate(x: nat, y: nat)
    requires x <= USIZE_MAX
    ensures x <= SaturatingAdd(x, y) <= USIZE_MAX
    ensures SaturatingAdd(x, y) == x + y || (SaturatingAdd(x, y) == USIZE_MAX && x + y > USIZE_MAX)
    ensures SaturatingSub(x, y) == x - y || (SaturatingSub(x, y) == 0 && x < y)
  {
  }

  // ---- The cache as the program holds it ----

  datatype Cached = Absent | Nothing | Held(buffer: Buffer)

  lemma OneMorePart(source: Source, words: seq<string>, i: nat, parts: seq<Buffer>)
    requires i < |words|
    ensures var part := DecodedFile(source, words[i]);
            parts + Parts(source, words[i..])
            == (if part.Some? then parts + [part.value] else parts) + Parts(source, words[i + 1..])
  {
    hide DecodedFile;
    assert words[i..][1..] == words[i + 1..];
  }

  lemma NoPartsLeft(source: Source, words: seq<string>, parts: seq<Buffer>)
    ensures parts + Parts(source, words[|words|..]) == parts
    ensures [] + Parts(source, words[0..]) == Parts(source, words)
  {
    assert words[0..] == words;
  }

  method PlayableParts(source: Source, words: seq<string>) returns (parts: seq<Buffer>)
    ensures parts == Parts(source, words)
  {
    hide DecodedFile, Parts;
    parts := [];
    NoPartsLeft(source, words, parts);
    for i := 0 to |words|
      invariant parts + Parts(source, words[i..]) == Parts(source, words)
    {
      OneMorePart(source, words, i, parts);
      var part := DecodedFile(source, words[i]);
      if part.Some? {
        parts := parts + [part.value];
      }
    }
    NoPartsLeft(source, words, parts);
  }

  class SoundCache {
    var entries: map<string, Entry>
    var order: seq<string>
    var bytes: nat
    const maxBytes: nat
    const maxEntries: nat

    function Value(): Cache
      reads this
    {
      Cache(entries, order, bytes, maxBytes, maxEntries)
    }

    constructor WithLimits(maxBytes: nat, maxEntries: nat)
      ensures Value() == Fresh(maxBytes, maxEntries)
    {
      entries, order, bytes := map[], [], 0;
      this.maxBytes := maxBytes;
      this.maxEntries := if maxEntries == 0 then 1 else maxEntries;
    }

    method Touch(key: string) returns (found: Cached)
      modifies this`order
      ensures found.Absent? <==> key !in entries
      ensures found.Absent? ==> order == old(order)
      ensures !found.Absent? ==> order == MovedToEnd(old(order), key)
      ensures !found.Absent? ==> entries[key] == if found.Held? then Some(found.buffer) else None
    {
      if key !in entries {
        return Absent;
      }
      var index := IndexIn(order, key);
      if index < |order| {
        order := order[..index] + order[index + 1..] + [key];
      }
      var entry := entries[key];
      found := if entry.Some? then Held(entry.value) else Nothing;
    }

    method Insert(key: string, decoded: Entry) returns (entry: Entry)
      modifies this
      ensures entry == if Size(decoded) > maxBytes then None else decoded
      ensures Value() == Evicted(Placed(old(Value()), key, entry))
    {
      entry := decoded;
      if entry.Some? && entry.value.ByteLength() > maxBytes {
        entry := None;
      }
      bytes := SaturatingAdd(bytes, Size(entry));
      entries := entries[key := entry];
      order := order + [key];
      ghost var placed := Value();
      while (|entries| > maxEntries || bytes > maxBytes) && order != []
        invariant Evicted(Value()) == Evicted(placed)
        decreases |order|
      {
        var oldest := order[0];
        order := order[1..];
        if oldest in entries {
          var evicted := entries[oldest];
          entries := entries - {oldest};
          bytes := SaturatingSub(bytes, Size(evicted));
        }
      }
    }

    method FileSound(source: Source, path: string) returns (sound: Entry)
      modifies this
      ensures (Value(), sound) == Resolved(old(Value()), source, File(path))
    {
      var found := Touch(path);
      match found {
        case Nothing => return None;
        case Held(buffer) => return Some(buffer);
        case Absent =>
      }
      sound := Insert(path, DecodedFile(source, path));
    }

    method SentenceSound(source: Source, words: seq<string>) returns (sound: Entry)
      modifies this
      ensures (Value(), sound) == Resolved(old(Value()), source, Sentence(words))
    {
      hide Evicted, MovedToEnd, Placed;
      var key := SentenceKey(words);
      var found := Touch(key);
      match found {
        case Nothing => return None;
        case Held(buffer) => return Some(buffer);
        case Absent =>
      }
      var parts := PlayableParts(source, words);
      sound := Insert(key, source.concatenate(parts));
    }

    method Resolve(source: Source, asset: Asset) returns (sound: Entry)
      modifies this
      ensures (Value(), sound) == Resolved(old(Value()), source, asset)
    {
      match asset {
        case Unresolved => sound := None;
        case File(path) => sound := FileSound(source, path);
        case Sentence(words) => sound := SentenceSound(source, words);
      }
    }
  }

  function Fresh(maxBytes: nat, maxEntries: nat): Cache {
    Cache(map[], [], 0, maxBytes, if maxEntries == 0 then 1 else maxEntries)
  }

  // ---- What every answer keeps ----

  ghost predicate Lists(order: seq<string>, entries: map<string, Entry>) {
    Distinct(order) && forall k :: k in order <==> k in entries
  }

  function TotalSize(entries: map<string, Entry>, order: seq<string>): nat
    requires forall k | k in order :: k in entries
  {
    if order == [] then 0 else Size(entries[order[0]]) + TotalSize(entries, order[1..])
  }

  /** The accounting invariant: `order` lists the keys once each, and `bytes`
      is what the entries really hold. */
  ghost predicate Accounted(c: Cache) {
    Lists(c.order, c.entries) && c.bytes == TotalSize(c.entries, c.order)
  }

  ghost predicate Bounded(c: Cache) {
    |c.entries| <= c.maxEntries && c.bytes <= c.maxBytes
  }

  /** Room for one more buffer without the byte counter saturating. */
  ghost predicate HasHeadroom(c: Cache, largest: nat) {
    c.maxBytes + largest <= USIZE_MAX
  }

  ghost predicate Good(c: Cache, largest: nat) {
    Accounted(c) && Bounded(c) && HasHeadroom(c, largest) && c.maxEntries >= 1
  }

  lemma UncachedIsWithin(source: Source, maxBytes: nat, asset: Asset, largest: nat)
    requires Lawful(source, largest)
    ensures Size(Uncached(source, maxBytes, asset)) <= largest
  {
  }

  lemma {:induction false} TotalSizeOfSame(a: map<string, Entry>, b: map<string, Entry>, order: seq<string>)
    requires forall k | k in order :: k in a && k in b && a[k] == b[k]
    ensures TotalSize(a, order) == TotalSize(b, order)
  {
    if order != [] {
      TotalSizeOfSame(a, b, order[1..]);
    }
  }

  lemma {:induction false} TotalSizeSplits(entries: map<string, Entry>, a: seq<string>, b: seq<string>)
    requires forall k | k in a + b :: k in entries
    ensures (forall k | k in a :: k in entries) && (forall k | k in b :: k in entries)
    ensures TotalSize(entries, a + b) == TotalSize(entries, a) + TotalSize(entries, b)
  {
    assert forall k | k in a :: k in a + b;
    assert forall k | k in b :: k in a + b;
    if a == [] {
      assert a + b == b;
    } else {
      assert (a + b)[1..] == a[1..] + b;
      TotalSizeSplits(entries, a[1..], b);
    }
  }

  lemma {:induction false} SetCount(order: seq<string>, keys: set<string>)
    requires Distinct(order) && forall k :: k in order <==> k in keys
    ensures |keys| == |order|
  {
    if order == [] {
      assert keys == {};
    } else {
      assert order == [order[0]] + order[1..];
      SetCount(order[1..], keys - {order[0]});
    }
  }

  lemma KeyCount(order: seq<string>, entries: map<string, Entry>)
    requires Lists(order, entries)
    ensures |entries| == |order|
  {
    SetCount(order, entries.Keys);
  }

  lemma TotalSizeMoved(entries: map<string, Entry>, before: seq<string>, key: string, after: seq<string>)
    requires forall k | k in before + [key] + after :: k in entries
    requires forall k | k in before + after + [key] :: k in entries
    ensures TotalSize(entries, before + [key] + after) == TotalSize(entries, before + after + [key])
  {
    TotalSizeSplits(entries, before + [key], after);
    TotalSizeSplits(entries, before, [key]);
    TotalSizeSplits(entries, before + after, [key]);
    TotalSizeSplits(entries, before, after);
  }

  /** Moving a held key to the end keeps the keys and the total. */
  lemma MovedToEndAccounted(c: Cache, key: string)
    requires Accounted(c) && key in c.entries
    ensures Accounted(c.(order := MovedToEnd(c.order, key)))
    ensures |MovedToEnd(c.order, key)| == |c.order| > 0
    ensures MovedToEnd(c.order, key)[|c.order| - 1] == key
  {
    hide TotalSize, Distinct;
    var i := IndexIn(c.order, key);
    var before, after := c.order[..i], c.order[i + 1..];
    assert c.order == before + [key] + after;
    assert MovedToEnd(c.order, key) == before + after + [key];
    assert forall k :: k in before + after + [key] <==> k in c.order;
    TotalSizeMoved(c.entries, before, key, after);
    MovedDistinct(before, key, after);
  }

  lemma MovedDistinct(before: seq<string>, key: string, after: seq<string>)
    requires Distinct(before + [key] + after)
    ensures Distinct(before + after + [key])
  {
    var was, moved := before + [key] + after, before + after + [key];
    forall i, j | 0 <= i < j < |moved| ensures moved[i] != moved[j] {
      var n := |before|;
      var i' := if i < n then i else i + 1;
      var j' := if j < n then j else if j < |moved| - 1 then j + 1 else n;
      assert moved[i] == was[i'] && moved[j] == was[j'] && i' != j';
    }
  }

  lemma PlacedAccounted(c: Cache, key: string, entry: Entry, largest: nat)
    requires Good(c, largest) && key !in c.entries && Size(entry) <= c.maxBytes && Size(entry) <= largest
    ensures Accounted(Placed(c, key, entry))
    ensures Placed(c, key, entry).bytes == c.bytes + Size(entry)
  {
    var placed := Placed(c, key, entry);
    TotalSizeOfSame(c.entries, placed.entries, c.order);
    TotalSizeSplits(placed.entries, c.order, [key]);
    assert forall k :: k in placed.order <==> k in c.order || k == key;
  }

  lemma WithoutOldestAccounted(c: Cache)
    requires Accounted(c) && c.order != []
    ensures Accounted(WithoutOldest(c)) && WithoutOldest(c).order == c.order[1..]
    ensures WithoutOldest(c).maxBytes == c.maxBytes && WithoutOldest(c).maxEntries == c.maxEntries
    ensures forall k | k in WithoutOldest(c).entries ::
              k in c.entries && WithoutOldest(c).entries[k] == c.entries[k]
  {
    hide Lists, Size, SaturatingSub, TotalSize;
    var oldest, rest := c.order[0], c.order[1..];
    var left := c.entries - {oldest};
    RestIsListed(c.order, c.entries);
    TotalSizeOfSame(c.entries, left, rest);
    OldestIsTakenOff(c.order, c.entries);
  }

  lemma RestIsListed(order: seq<string>, entries: map<string, Entry>)
    requires Lists(order, entries) && order != []
    ensures order[0] in entries && Lists(order[1..], entries - {order[0]})
    ensures forall k | k in order[1..] :: k in entries && k in entries - {order[0]}
  {
    assert order == [order[0]] + order[1..];
    assert forall i | 0 <= i < |order[1..]| :: order[1..][i] == order[i + 1];
  }

  lemma OldestIsTakenOff(order: seq<string>, entries: map<string, Entry>)
    requires Lists(order, entries) && order != []
    ensures (forall k | k in order :: k in entries) && forall k | k in order[1..] :: k in entries
    ensures SaturatingSub(TotalSize(entries, order), Size(entries[order[0]])) == TotalSize(entries, order[1..])
  {
  }

  /** Whether a list of keys would fit both bounds. */
  ghost predicate Fits(c: Cache, keys: seq<string>)
    requires forall k | k in keys :: k in c.entries
  {
    |keys| <= c.maxEntries && TotalSize(c.entries, keys) <= c.maxBytes
  }

  /** Eviction keeps the longest run of most recently used keys that fits. */
  lemma {:induction false} EvictionKeepsLongestFit(c: Cache) returns (n: nat)
    requires Accounted(c) && c.maxEntries >= 1
    ensures n <= |c.order| && Evicted(c).order == c.order[n..]
    ensures Accounted(Evicted(c)) && Fits(c, c.order[n..])
    ensures n > 0 ==> !Fits(c, c.order[n - 1..])
    ensures Evicted(c).maxBytes == c.maxBytes && Evicted(c).maxEntries == c.maxEntries
    ensures forall k | k in Evicted(c).entries :: k in c.entries && Evicted(c).entries[k] == c.entries[k]
    decreases |c.order|
  {
    hide WithoutOldest, Accounted, Overfull, Fits;
    OverfullIffUnfit(c);
    if Overfull(c) && c.order != [] {
      var next := WithoutOldest(c);
      WithoutOldestAccounted(c);
      var m := EvictionKeepsLongestFit(next);
      n := m + 1;
      FitsAlike(c, next, m);
      if m > 0 {
        FitsAlike(c, next, m - 1);
      }
    } else {
      n := 0;
    }
  }

  /** An accounted cache is overfull exactly when its keys do not all fit. */
  lemma OverfullIffUnfit(c: Cache)
    requires Accounted(c)
    ensures c.order[0..] == c.order && forall k | k in c.order :: k in c.entries
    ensures Overfull(c) <==> !Fits(c, c.order[0..])
    ensures c.order == [] ==> !Overfull(c)
  {
    hide TotalSize, Distinct;
    KeyCount(c.order, c.entries);
    NothingFits(c);
  }

  lemma FitsAlike(c: Cache, next: Cache, m: nat)
    requires Accounted(c) && Accounted(next) && c.order != [] && next.order == c.order[1..] && m <= |next.order|
    requires next.maxBytes == c.maxBytes && next.maxEntries == c.maxEntries
    requires forall k | k in next.entries :: k in c.entries && next.entries[k] == c.entries[k]
    ensures next.order[m..] == c.order[m + 1..]
    ensures forall k | k in next.order[m..] :: k in c.entries && k in next.entries
    ensures Fits(next, next.order[m..]) <==> Fits(c, c.order[m + 1..])
  {
    hide TotalSize, Distinct;
    TotalSizeOfSame(c.entries, next.entries, next.order[m..]);
  }

  lemma NothingFits(c: Cache)
    ensures Fits(c, [])
  {
  }

  /** What an answer leaves behind: a good cache with the same limits, the
      asset asked for held as the most recently used one, and nothing else
      that is still held changed. */
  ghost predicate Answered(c: Cache, next: Cache, key: string, answer: Entry, largest: nat) {
    && Good(next, largest) && next.maxBytes == c.maxBytes && next.maxEntries == c.maxEntries
    && next.order != [] && next.order[|next.order| - 1] == key
    && key in next.entries && next.entries[key] == answer
    && forall k | k in next.entries && k != key :: k in c.entries && next.entries[k] == c.entries[k]
  }

  lemma HeldIsAnswered(c: Cache, key: string, largest: nat)
    requires Good(c, largest) && key in c.entries
    ensures Answered(c, c.(order := MovedToEnd(c.order, key)), key, c.entries[key], largest)
  {
    hide TotalSize, MovedToEnd, Lists;
    MovedToEndAccounted(c, key);
  }

  /** The key placed last is never evicted by its own insertion. */
  lemma LastSurvives(c: Cache) returns (n: nat)
    requires Accounted(c) && c.order != [] && c.maxEntries >= 1
    requires Size(c.entries[c.order[|c.order| - 1]]) <= c.maxBytes
    ensures n < |c.order| && Evicted(c).order == c.order[n..] && Accounted(Evicted(c)) && Fits(c, c.order[n..])
    ensures Evicted(c).maxBytes == c.maxBytes && Evicted(c).maxEntries == c.maxEntries
    ensures forall k | k in Evicted(c).entries :: k in c.entries && Evicted(c).entries[k] == c.entries[k]
  {
    hide TotalSize, Evicted, Distinct, Size, Fits;
    LastFits(c);
    assert c.order[|c.order| - 1..] == [c.order[|c.order| - 1]];
    n := EvictionKeepsLongestFit(c);
  }

  lemma EvictedIsBounded(c: Cache, n: nat)
    requires Accounted(c) && n < |c.order|
    requires Evicted(c).order == c.order[n..] && Accounted(Evicted(c)) && Fits(c, c.order[n..])
    requires Evicted(c).maxBytes == c.maxBytes && Evicted(c).maxEntries == c.maxEntries
    requires forall k | k in Evicted(c).entries :: k in c.entries && Evicted(c).entries[k] == c.entries[k]
    ensures Bounded(Evicted(c))
  {
    hide TotalSize, Evicted, Distinct, Size;
    KeyCount(Evicted(c).order, Evicted(c).entries);
    TotalSizeOfSame(c.entries, Evicted(c).entries, c.order[n..]);
  }

  lemma AbsentIsAnswered(c: Cache, key: string, entry: Entry, largest: nat)
    requires Good(c, largest) && key !in c.entries && Size(entry) <= c.maxBytes && Size(entry) <= largest
    ensures Answered(c, Evicted(Placed(c, key, entry)), key, entry, largest)
  {
    hide TotalSize, Evicted, Distinct, Size, Fits;
    PlacedAccounted(c, key, entry, largest);
    var placed := Placed(c, key, entry);
    var n := LastSurvives(placed);
    EvictedIsBounded(placed, n);
  }

  /** One answer keeps the accounting and both bounds, and the asset asked for
      survives its own insertion. */
  lemma ResolvedKeepsGood(c: Cache, source: Source, asset: Asset, largest: nat)
    requires Good(c, largest) && Lawful(source, largest) && !asset.Unresolved?
    ensures Answered(c, Resolved(c, source, asset).0, Key(asset), Resolved(c, source, asset).1, largest)
  {
    hide Good, MovedToEnd, Evicted, Placed, Decoded, Answered;
    var key := Key(asset);
    if key in c.entries {
      HeldIsAnswered(c, key, largest);
    } else {
      UncachedIsWithin(source, c.maxBytes, asset, largest);
      AbsentIsAnswered(c, key, Uncached(source, c.maxBytes, asset), largest);
    }
  }

  lemma LastFits(c: Cache)
    requires c.order != [] && c.order[|c.order| - 1] in c.entries && c.maxEntries >= 1
    requires Size(c.entries[c.order[|c.order| - 1]]) <= c.maxBytes
    ensures Fits(c, [c.order[|c.order| - 1]])
  {
    assert [c.order[|c.order| - 1]][1..] == [];
  }

  // ---- Runs ----

  /** A cache after answering for every asset in turn, and the answers. */
  function RunAll(c: Cache, source: Source, assets: seq<Asset>): (r: (Cache, seq<Entry>))
    ensures |r.1| == |assets|
  {
    if assets == [] then (c, [])
    else
      var n := |assets| - 1;
      var before := RunAll(c, source, assets[..n]);
      var last := Resolved(before.0, source, assets[n]);
      (last.0, before.1 + [last.1])
  }

  /** The keys a run asked for, in order. */
  function KeysOf(assets: seq<Asset>): seq<string> {
    if assets == [] then []
    else
      var n := |assets| - 1;
      KeysOf(assets[..n]) + if assets[n].Unresolved? then [] else [Key(assets[n])]
  }

  /** The distinct keys of a history, by last use, most recent last. */
  function Recency(history: seq<string>): seq<string> {
    if history == [] then []
    else
      var n := |history| - 1;
      Without(Recency(history[..n]), history[n]) + [history[n]]
  }

  function Without(keys: seq<string>, key: string): seq<string> {
    if keys == [] then []
    else (if keys[0] == key then [] else [keys[0]]) + Without(keys[1..], key)
  }

  ghost predicate IsSuffix(s: seq<string>, t: seq<string>) {
    |s| <= |t| && s == t[|t| - |s|..]
  }

  lemma FreshIsGood(maxBytes: nat, maxEntries: nat, largest: nat)
    requires maxBytes + largest <= USIZE_MAX
    ensures Good(Fresh(maxBytes, maxEntries), largest)
  {
  }

  /** The accounting and both bounds hold after any sequence of requests. */
  lemma {:induction false} RunKeepsGood(c: Cache, source: Source, assets: seq<Asset>, largest: nat)
    requires Good(c, largest) && Lawful(source, largest)
    ensures Good(RunAll(c, source, assets).0, largest)
    ensures RunAll(c, source, assets).0.maxBytes == c.maxBytes
  {
    hide Good, Resolved;
    if assets != [] {
      var n := |assets| - 1;
      RunKeepsGood(c, source, assets[..n], largest);
      ResolvedKeepsLimits(RunAll(c, source, assets[..n]).0, source, assets[n], largest);
    }
  }

  lemma ResolvedKeepsLimits(c: Cache, source: Source, asset: Asset, largest: nat)
    requires Good(c, largest) && Lawful(source, largest)
    ensures Good(Resolved(c, source, asset).0, largest) && Resolved(c, source, asset).0.maxBytes == c.maxBytes
  {
    hide Good;
    if !asset.Unresolved? {
      ResolvedKeepsGood(c, source, asset, largest);
    }
  }

  /** In any run every answer leaves behind what one answer does: the asset
      held as the most recently used one, and nothing else that is still held
      changed. */
  lemma RunAnswers(c: Cache, source: Source, assets: seq<Asset>, largest: nat)
    requires Good(c, largest) && Lawful(source, largest) && assets != [] && !assets[|assets| - 1].Unresolved?
    ensures var n := |assets| - 1;
            Answered(RunAll(c, source, assets[..n]).0, RunAll(c, source, assets).0, Key(assets[n]),
                     RunAll(c, source, assets).1[n], largest)
  {
    hide Good, Resolved, Answered;
    var n := |assets| - 1;
    RunKeepsGood(c, source, assets[..n], largest);
    ResolvedKeepsGood(RunAll(c, source, assets[..n]).0, source, assets[n], largest);
  }

  /** The cache the program makes has room for every buffer there can be, so
      its accounting and both its bounds are exact in every run. */
  lemma ProgramCacheIsExact(source: Source, assets: seq<Asset>)
    requires Lawful(source, LARGEST_BUFFER)
    ensures var c := RunAll(Fresh(MAX_CACHE_BYTES, MAX_CACHE_ENTRIES), source, assets).0;
            Accounted(c) && |c.entries| <= MAX_CACHE_ENTRIES && c.bytes <= MAX_CACHE_BYTES
  {
    hide Accounted;
    var start := Fresh(MAX_CACHE_BYTES, MAX_CACHE_ENTRIES);
    FreshIsGood(MAX_CACHE_BYTES, MAX_CACHE_ENTRIES, LARGEST_BUFFER);
    RunKeepsGood(start, source, assets, LARGEST_BUFFER);
    LimitsStay(start, source, assets);
  }

  lemma {:induction false} LimitsStay(c: Cache, source: Source, assets: seq<Asset>)
    ensures var after := RunAll(c, source, assets).0;
            after.maxBytes == c.maxBytes && after.maxEntries == c.maxEntries
  {
    hide Resolved;
    if assets != [] {
      var n := |assets| - 1;
      LimitsStay(c, source, assets[..n]);
      OneAnswerKeepsLimits(RunAll(c, source, assets[..n]).0, source, assets[n]);
    }
  }

  lemma OneAnswerKeepsLimits(c: Cache, source: Source, asset: Asset)
    ensures var after := Resolved(c, source, asset).0;
            after.maxBytes == c.maxBytes && after.maxEntries == c.maxEntries
  {
    hide Uncached;
    if !asset.Unresolved? && Key(asset) !in c.entries {
      EvictedKeepsLimits(Placed(c, Key(asset), Uncached(source, c.maxBytes, asset)));
    }
  }

  lemma {:induction false} EvictedKeepsLimits(c: Cache)
    ensures Evicted(c).maxBytes == c.maxBytes && Evicted(c).maxEntries == c.maxEntries
    decreases |c.order|
  {
    if Overfull(c) && c.order != [] {
      EvictedKeepsLimits(WithoutOldest(c));
    }
  }

  lemma {:induction false} WithoutAbsent(keys: seq<string>, key: string)
    requires key !in keys
    ensures Without(keys, key) == keys
  {
    if keys != [] {
      WithoutAbsent(keys[1..], key);
      assert keys == [keys[0]] + keys[1..];
    }
  }

  lemma {:induction false} WithoutSplits(a: seq<string>, b: seq<string>, key: string)
    ensures Without(a + b, key) == Without(a, key) + Without(b, key)
  {
    if a == [] {
      assert a + b == b;
    } else {
      var first := if a[0] == key then [] else [a[0]];
      WithoutSplits(a[1..], b, key);
      assert (a + b)[1..] == a[1..] + b && (a + b)[0] == a[0];
      Regroup(first, Without(a[1..], key), Without(b, key));
    }
  }

  lemma Regroup(a: seq<string>, b: seq<string>, c: seq<string>)
    ensures a + (b + c) == a + b + c
  {
  }

  lemma WithoutTheOne(before: seq<string>, key: string, after: seq<string>)
    requires key !in before && key !in after
    ensures Without(before + ([key] + after), key) == before + after
  {
    hide Without;
    WithoutSplits(before, [key] + after, key);
    WithoutFirst(key, after);
    WithoutAbsent(before, key);
    WithoutAbsent(after, key);
  }

  lemma WithoutFirst(key: string, after: seq<string>)
    ensures Without([key] + after, key) == Without(after, key)
  {
    assert ([key] + after)[1..] == after;
    assert [] + Without(after, key) == Without(after, key);
  }

  lemma MovedIsWithout(order: seq<string>, key: string)
    requires Distinct(order) && key in order
    ensures MovedToEnd(order, key) == Without(order, key) + [key]
  {
    hide Without;
    var i := IndexIn(order, key);
    var before, after := order[..i], order[i + 1..];
    assert order == before + ([key] + after);
    assert forall j | 0 <= j < |after| :: after[j] == order[i + 1 + j];
    WithoutTheOne(before, key, after);
  }

  /** The step the recency order takes when a key that is held, or one that is
      not, is used next. */
  lemma SuffixAfterUse(order: seq<string>, recent: seq<string>, key: string)
    requires IsSuffix(order, recent)
    ensures IsSuffix(Without(order, key) + [key], Without(recent, key) + [key])
  {
    var older := recent[..|recent| - |order|];
    assert recent == older + order;
    WithoutSplits(older, order, key);
    assert Without(recent, key) + [key] == Without(older, key) + (Without(order, key) + [key]);
  }

  lemma NothingIsSuffix()
    ensures IsSuffix([], [])
  {
  }

  lemma SuffixOfSuffix(s: seq<string>, t: seq<string>, u: seq<string>)
    requires IsSuffix(s, t) && IsSuffix(t, u)
    ensures IsSuffix(s, u)
  {
  }

  lemma ResolvedOrder(c: Cache, source: Source, asset: Asset, largest: nat)
    requires Good(c, largest) && Lawful(source, largest) && !asset.Unresolved?
    ensures IsSuffix(Resolved(c, source, asset).0.order, Without(c.order, Key(asset)) + [Key(asset)])
  {
    hide TotalSize, MovedToEnd, Evicted, Decoded, Without;
    var key := Key(asset);
    if key in c.entries {
      MovedIsWithout(c.order, key);
    } else {
      var entry := Uncached(source, c.maxBytes, asset);
      UncachedIsWithin(source, c.maxBytes, asset, largest);
      PlacedAccounted(c, key, entry, largest);
      var n := EvictionKeepsLongestFit(Placed(c, key, entry));
      WithoutAbsent(c.order, key);
    }
  }

  /** After any run of a fresh cache the held keys, oldest first, are exactly
      the most recently used ones, in order of last use. */
  lemma {:induction false} HoldsMostRecentlyUsed(maxBytes: nat, maxEntries: nat, source: Source, assets: seq<Asset>,
                                                  largest: nat)
    requires maxBytes + largest <= USIZE_MAX && Lawful(source, largest)
    ensures IsSuffix(RunAll(Fresh(maxBytes, maxEntries), source, assets).0.order, Recency(KeysOf(assets)))
  {
    hide Resolved, Without, Good, IsSuffix;
    if assets == [] {
      NothingIsSuffix();
    } else {
      var n := |assets| - 1;
      var c := RunAll(Fresh(maxBytes, maxEntries), source, assets[..n]).0;
      HoldsMostRecentlyUsed(maxBytes, maxEntries, source, assets[..n], largest);
      FreshIsGood(maxBytes, maxEntries, largest);
      RunKeepsGood(Fresh(maxBytes, maxEntries), source, assets[..n], largest);
      if assets[n].Unresolved? {
        UnresolvedChangesNothing(c, source);
        assert KeysOf(assets) == KeysOf(assets[..n]);
      } else {
        var key, history := Key(assets[n]), KeysOf(assets[..n]);
        ResolvedOrder(c, source, assets[n], largest);
        SuffixAfterUse(c.order, Recency(history), key);
        SuffixOfSuffix(Resolved(c, source, assets[n]).0.order, Without(c.order, key) + [key],
                       Without(Recency(history), key) + [key]);
        assert KeysOf(assets) == history + [key];
        assert (history + [key])[..|history|] == history;
      }
    }
  }

  lemma UnresolvedChangesNothing(c: Cache, source: Source)
    ensures Resolved(c, source, Unresolved) == (c, None)
  {
  }

  // ---- Agreement with uncached decoding ----

  /** Assets that share a key decode to the same thing. */
  ghost predicate KeysTellApart(source: Source, maxBytes: nat, universe: set<Asset>) {
    forall a, b | a in universe && b in universe && !a.Unresolved? && !b.Unresolved? && Key(a) == Key(b) ::
      Uncached(source, maxBytes, a) == Uncached(source, maxBytes, b)
  }

  /** Every held entry is what its asset decodes to. */
  ghost predicate Faithful(c: Cache, source: Source, universe: set<Asset>) {
    forall a | a in universe && !a.Unresolved? && Key(a) in c.entries ::
      c.entries[Key(a)] == Uncached(source, c.maxBytes, a)
  }

  ghost predicate Agrees(c: Cache, source: Source, assets: seq<Asset>) {
    forall i | 0 <= i < |assets| ::
      RunAll(c, source, assets).1[i] == Uncached(source, c.maxBytes, assets[i])
  }

  lemma ResolvedIsFaithful(c: Cache, source: Source, universe: set<Asset>, asset: Asset, largest: nat)
    requires Good(c, largest) && Lawful(source, largest) && Faithful(c, source, universe) && asset in universe
    requires KeysTellApart(source, c.maxBytes, universe)
    ensures Faithful(Resolved(c, source, asset).0, source, universe)
    ensures Resolved(c, source, asset).1 == Uncached(source, c.maxBytes, asset)
  {
    hide Good, Decoded, Evicted;
    if asset.Unresolved? {
      UnresolvedDecodes(source, c.maxBytes);
    } else {
      ResolvedKeepsGood(c, source, asset, largest);
    }
  }

  lemma UnresolvedDecodes(source: Source, maxBytes: nat)
    ensures Uncached(source, maxBytes, Unresolved) == None
  {
  }

  lemma {:induction false} RunIsFaithful(
      c: Cache, source: Source, universe: set<Asset>, assets: seq<Asset>, largest: nat)
    requires Good(c, largest) && Lawful(source, largest) && Faithful(c, source, universe)
    requires KeysTellApart(source, c.maxBytes, universe)
    requires forall a | a in assets :: a in universe
    ensures Faithful(RunAll(c, source, assets).0, source, universe)
    ensures Agrees(c, source, assets)
  {
    hide Good, Uncached, Resolved, KeysTellApart, Faithful;
    if assets != [] {
      var n := |assets| - 1;
      RunIsFaithful(c, source, universe, assets[..n], largest);
      RunKeepsGood(c, source, assets[..n], largest);
      ResolvedIsFaithful(RunAll(c, source, assets[..n]).0, source, universe, assets[n], largest);
    }
  }

  /** On a fixed source a fresh cache agrees with uncached decoding over every
      sequence of requests for some assets exactly when those assets' keys
      tell their sounds apart. */
  lemma AgreementIffKeysTellApart(maxBytes: nat, maxEntries: nat, source: Source, universe: set<Asset>,
                                   largest: nat)
    requires maxBytes + largest <= USIZE_MAX && Lawful(source, largest)
    ensures (forall assets: seq<Asset> ::
               (forall a | a in assets :: a in universe) ==> Agrees(Fresh(maxBytes, maxEntries), source, assets))
            <==> KeysTellApart(source, maxBytes, universe)
  {
    var c := Fresh(maxBytes, maxEntries);
    FreshIsGood(maxBytes, maxEntries, largest);
    if KeysTellApart(source, maxBytes, universe) {
      forall assets: seq<Asset> | forall a | a in assets :: a in universe ensures Agrees(c, source, assets) {
        RunIsFaithful(c, source, universe, assets, largest);
      }
    } else {
      var a, b :| a in universe && b in universe && !a.Unresolved? && !b.Unresolved? && Key(a) == Key(b) &&
                  Uncached(source, maxBytes, a) != Uncached(source, maxBytes, b);
      SharedKeyMisleads(c, source, a, b, largest);
      assert forall x | x in [a, b] :: x in universe;
    }
  }

  lemma SharedKeyMisleads(c: Cache, source: Source, a: Asset, b: Asset, largest: nat)
    requires Good(c, largest) && Lawful(source, largest) && c.entries == map[]
    requires !a.Unresolved? && !b.Unresolved? && Key(a) == Key(b)
    requires Uncached(source, c.maxBytes, a) != Uncached(source, c.maxBytes, b)
    ensures !Agrees(c, source, [a, b])
  {
    hide Good, Uncached, Evicted;
    var first := Resolved(c, source, a).0;
    ResolvedKeepsGood(c, source, a, largest);
    assert [a, b][..1] == [a] && [a][..0] == [];
    assert RunAll(c, source, [a]).0 == first;
    assert RunAll(c, source, [a, b]).1[1] == Resolved(first, source, b).1;
  }

  /** Well-named assets always tell their sounds apart. */
  lemma WellNamedAssetsAgree(maxBytes: nat, maxEntries: nat, source: Source, assets: seq<Asset>, largest: nat)
    requires maxBytes + largest <= USIZE_MAX && Lawful(source, largest)
    requires forall a | a in assets :: WellNamed(a)
    ensures Agrees(Fresh(maxBytes, maxEntries), source, assets)
  {
    hide Uncached;
    var universe := set a | a in assets;
    forall a, b | a in universe && b in universe && !a.Unresolved? && !b.Unresolved? && Key(a) == Key(b)
      ensures Uncached(source, maxBytes, a) == Uncached(source, maxBytes, b)
    {
      KeysAreInjective(a, b);
    }
    AgreementIffKeysTellApart(maxBytes, maxEntries, source, universe, largest);
  }

  /** The one collision the path policy leaves: a file called "!" and the
      empty sentence. */
  lemma EmptySentenceCollides()
    ensures Key(File("!")) == Key(Sentence([]))
    ensures OneLine("!") && !WellNamed(File("!"))
  {
  }

  // ---- Which assets a cache may serve whatever the files hold ----

  ghost predicate KeysDiffer(universe: set<Asset>) {
    forall a, b | a in universe && b in universe && !a.Unresolved? && !b.Unresolved? && Key(a) == Key(b) :: a == b
  }

  ghost predicate AlwaysAgrees(maxBytes: nat, maxEntries: nat, universe: set<Asset>, largest: nat) {
    forall source: Source, assets: seq<Asset> ::
      Lawful(source, largest) && (forall a | a in assets :: a in universe) ==>
        Agrees(Fresh(maxBytes, maxEntries), source, assets)
  }

  /** A source in which the word `lone` sounds unlike every other, a sentence
      sounds only when it is the one with these parts, and one byte is one
      buffer of one sample. */
  function Telling(lone: string, parts: seq<Buffer>): Source {
    Source(
      path => Some([if path == lone then 0 else 1]),
      (bytes: seq<bv8>) => Some(if bytes == [0] then Note(0.0) else Note(1.0)),
      (joined: seq<Buffer>) => if joined == parts && parts != [] then Some(Note(0.0)) else None)
  }

  function Note(level: real): Buffer {
    Buffer([level], 1)
  }

  lemma TellingIsLawful(lone: string, parts: seq<Buffer>, largest: nat)
    requires largest >= 4
    ensures Lawful(Telling(lone, parts), largest)
  {
  }

  lemma TellingFile(lone: string, parts: seq<Buffer>, path: string)
    ensures DecodedFile(Telling(lone, parts), path) == Some(if path == lone then Note(0.0) else Note(1.0))
  {
    var source := Telling(lone, parts);
    assert source.read(path).Some?;
    if path == lone {
      assert source.read(path).value == [0];
    } else {
      assert source.read(path).value == [1] && [1 as bv8][0] != [0 as bv8][0];
    }
  }

  /** What the words of a sentence sound like there. */
  function Notes(lone: string, words: seq<string>): seq<Buffer> {
    seq(|words|, i requires 0 <= i < |words| => if words[i] == lone then Note(0.0) else Note(1.0))
  }

  lemma {:induction false} TellingParts(lone: string, parts: seq<Buffer>, words: seq<string>)
    ensures Parts(Telling(lone, parts), words) == Notes(lone, words)
  {
    hide DecodedFile, Telling;
    if words != [] {
      TellingFile(lone, parts, words[0]);
      TellingParts(lone, parts, words[1..]);
      assert Notes(lone, words) == [Notes(lone, words)[0]] + Notes(lone, words[1..]);
    }
  }

  /** Two different sentences, and a file and a sentence, sound different in
      some lawful source. */
  lemma SentencesSoundDifferent(v: seq<string>, w: seq<string>) returns (lone: string)
    requires v != w
    ensures Notes(lone, v) != Notes(lone, w)
  {
    if |v| == |w| {
      var i :| 0 <= i < |v| && v[i] != w[i];
      lone := v[i];
      assert Notes(lone, v)[i] == Note(0.0) && Notes(lone, w)[i] == Note(1.0);
      assert Note(0.0).samples[0] != Note(1.0).samples[0];
    } else {
      lone := "";
      assert |Notes(lone, v)| == |v| && |Notes(lone, w)| == |w|;
    }
  }

  lemma TellingSentence(lone: string, parts: seq<Buffer>, maxBytes: nat, words: seq<string>)
    requires maxBytes >= 4
    ensures Uncached(Telling(lone, parts), maxBytes, Sentence(words))
            == if Notes(lone, words) == parts && parts != [] then Some(Note(0.0)) else None
  {
    hide Parts;
    TellingParts(lone, parts, words);
  }

  lemma DifferentAssetsAreTold(a: Asset, b: Asset, maxBytes: nat, largest: nat)
    requires !a.Unresolved? && !b.Unresolved? && Key(a) == Key(b) && a != b
    requires maxBytes >= 4 && largest >= 4
    ensures exists source: Source ::
              Lawful(source, largest) && Uncached(source, maxBytes, a) != Uncached(source, maxBytes, b)
  {
    hide Uncached, Lawful, Notes, Telling;
    match (a, b)
    case (File(p), Sentence(w)) => FileAndSentenceAreTold(p, w, maxBytes, largest);
    case (Sentence(w), File(p)) => FileAndSentenceAreTold(p, w, maxBytes, largest);
    case (Sentence(v), Sentence(w)) => SentencesAreTold(v, w, maxBytes, largest);
    case _ =>
  }

  lemma FileAndSentenceAreTold(path: string, words: seq<string>, maxBytes: nat, largest: nat)
    requires maxBytes >= 4 && largest >= 4
    ensures exists source: Source ::
              Lawful(source, largest) &&
              Uncached(source, maxBytes, File(path)) != Uncached(source, maxBytes, Sentence(words))
  {
    hide Lawful, Notes, Telling, DecodedFile;
    var source := Telling(path, []);
    TellingIsLawful(path, [], largest);
    TellingFile(path, [], path);
    TellingSentence(path, [], maxBytes, words);
    assert Uncached(source, maxBytes, File(path)).Some?;
  }

  lemma SentencesAreTold(v: seq<string>, w: seq<string>, maxBytes: nat, largest: nat)
    requires v != w && maxBytes >= 4 && largest >= 4
    ensures exists source: Source ::
              Lawful(source, largest) &&
              Uncached(source, maxBytes, Sentence(v)) != Uncached(source, maxBytes, Sentence(w))
  {
    hide Lawful, Notes, Telling, Uncached;
    var lone := SentencesSoundDifferent(v, w);
    NotesOfNone(lone, v);
    NotesOfNone(lone, w);
    var parts := Notes(lone, if v != [] then v else w);
    TellingIsLawful(lone, parts, largest);
    TellingSentence(lone, parts, maxBytes, v);
    TellingSentence(lone, parts, maxBytes, w);
    assert Uncached(Telling(lone, parts), maxBytes, Sentence(v))
        != Uncached(Telling(lone, parts), maxBytes, Sentence(w));
  }

  lemma NotesOfNone(lone: string, words: seq<string>)
    ensures Notes(lone, words) == [] <==> words == []
  {
    assert |Notes(lone, words)| == |words|;
  }

  /** What a caller can check without knowing any file: a fresh cache agrees
      with uncached decoding on every lawful source and every run of requests
      for some assets exactly when no two of those assets share a key. */
  lemma AgreementIffKeysDiffer(maxBytes: nat, maxEntries: nat, universe: set<Asset>, largest: nat)
    requires maxBytes + largest <= USIZE_MAX && maxBytes >= 4 && largest >= 4
    ensures AlwaysAgrees(maxBytes, maxEntries, universe, largest) <==> KeysDiffer(universe)
  {
    hide Agrees, Lawful, Uncached;
    if KeysDiffer(universe) {
      forall source: Source, assets: seq<Asset> |
        Lawful(source, largest) && (forall a | a in assets :: a in universe)
        ensures Agrees(Fresh(maxBytes, maxEntries), source, assets)
      {
        AgreementIffKeysTellApart(maxBytes, maxEntries, source, universe, largest);
      }
    } else {
      var a, b :| a in universe && b in universe && !a.Unresolved? && !b.Unresolved? && Key(a) == Key(b) && a != b;
      DifferentAssetsAreTold(a, b, maxBytes, largest);
      var source: Source :|
        Lawful(source, largest) && Uncached(source, maxBytes, a) != Uncached(source, maxBytes, b);
      FreshIsGood(maxBytes, maxEntries, largest);
      SharedKeyMisleads(Fresh(maxBytes, maxEntries), source, a, b, largest);
      assert forall x | x in [a, b] :: x in universe;
    }
  }

  // ---- Under the path policy, with the program's joiner ----

  const MAX_CONCATENATED_FRAMES: nat := 4_194_304

  function SamplesOf(parts: seq<Buffer>): seq<real> {
    if parts == [] then [] else parts[0].samples + SamplesOf(parts[1..])
  }

  /** What the program joins sounds of one channel and one rate to: their samples
      one after the other, if there are any and not too many. */
  function Spliced(parts: seq<Buffer>): Entry {
    var samples := SamplesOf(parts);
    if samples == [] || |samples| > MAX_CONCATENATED_FRAMES then None else Some(Buffer(samples, 1))
  }

  /** A source whose every file is a note, joined as the program joins. */
  function Notebook(): Source {
    Source(_ => Some([]), _ => Some(Note(0.0)), parts => Spliced(parts))
  }

  lemma NotebookIsLawful(largest: nat)
    requires largest >= 4 * MAX_CONCATENATED_FRAMES
    ensures Lawful(Notebook(), largest)
  {
    assert SamplesOf([]) == [];
  }

  /** Names in one line: what the path policy guarantees. */
  ghost predicate NamedInOneLine(asset: Asset) {
    match asset
    case Unresolved => true
    case File(path) => OneLine(path)
    case Sentence(words) => forall w | w in words :: OneLine(w)
  }

  ghost predicate HasTheCollision(universe: set<Asset>) {
    File("!") in universe && Sentence([]) in universe
  }

  lemma OnlyOneCollision(a: Asset, b: Asset)
    requires !a.Unresolved? && !b.Unresolved? && NamedInOneLine(a) && NamedInOneLine(b) && Key(a) == Key(b) && a != b
    ensures (a == File("!") && b == Sentence([])) || (a == Sentence([]) && b == File("!"))
  {
    hide SentenceKey;
    if WellNamed(a) && WellNamed(b) {
      KeysAreInjective(a, b);
    } else if a == File("!") && b.Sentence? {
      BangIsTheEmptySentence(b.words);
    } else if b == File("!") && a.Sentence? {
      BangIsTheEmptySentence(a.words);
    }
  }

  lemma BangIsTheEmptySentence(words: seq<string>)
    requires SentenceKey(words) == "!"
    ensures words == []
  {
    assert |SentenceKey(words)| == 1 + |JoinedWords(words)|;
  }

  /** For assets named in one line there is exactly one way to be misled: a file
      called "!" and the empty sentence together. Then the program's own joiner
      misleads; without it no source does. */
  lemma AgreementUnderPolicy(maxBytes: nat, maxEntries: nat, universe: set<Asset>, largest: nat)
    requires maxBytes + largest <= USIZE_MAX && maxBytes >= 4 && largest >= 4 * MAX_CONCATENATED_FRAMES
    requires forall a | a in universe :: NamedInOneLine(a)
    ensures AlwaysAgrees(maxBytes, maxEntries, universe, largest) <==> !HasTheCollision(universe)
    ensures HasTheCollision(universe) ==>
              Lawful(Notebook(), largest) &&
              !Agrees(Fresh(maxBytes, maxEntries), Notebook(), [File("!"), Sentence([])])
  {
    hide Agrees, Lawful, AlwaysAgrees, SentenceKey;
    AgreementIffKeysDiffer(maxBytes, maxEntries, universe, largest);
    EmptySentenceCollides();
    if HasTheCollision(universe) {
      NotebookIsLawful(largest);
      NotebookTells(maxBytes);
      FreshIsGood(maxBytes, maxEntries, largest);
      SharedKeyMisleads(Fresh(maxBytes, maxEntries), Notebook(), File("!"), Sentence([]), largest);
    } else {
      forall a, b | a in universe && b in universe && !a.Unresolved? && !b.Unresolved? && Key(a) == Key(b)
        ensures a == b
      {
        if a != b {
          OnlyOneCollision(a, b);
        }
      }
    }
  }

  lemma NotebookTells(maxBytes: nat)
    requires maxBytes >= 4
    ensures Uncached(Notebook(), maxBytes, File("!")) != Uncached(Notebook(), maxBytes, Sentence([]))
  {
    assert SamplesOf([]) == [];
  }
}
