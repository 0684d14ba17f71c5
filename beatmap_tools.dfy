/**
 * BeatmapTools: reading the format version out of a .osu file's first bytes,
 * decoding the file and cutting its hit objects to a limit, and fetching the
 * file with retries. The decoder and the beatmap cache the bytes come from
 * are parameters: `decode` stands for `LegacyBeatmapDecoder(version).Decode`
 * and `fetch(i)` for the outcome of the i-th call to `CacheBeatmap`.
 */
module BeatmapTools {
  import opened Wrappers
  import opened Numerics
  import opened Game

  newtype byte = x: int | 0 <= x < 256

  /** `beatmapBytes[..30]`: the version is looked for in the first 30 bytes. */
  const HeaderLength := 30

  /** int.MaxValue, the largest number int.Parse accepts. */
  const IntMax := 0x7fff_ffff

  /** ASCII 'v'. */
  const LetterV: byte := 118

  /** An ASCII digit '0'..'9'. */
  predicate IsDigit(b: byte) {
    48 <= b <= 57
  }

  /** The pattern `v\d` starts at `k`. */
  predicate MatchAt(text: seq<byte>, k: int) {
    0 <= k && k + 1 < |text| && text[k] == LetterV && IsDigit(text[k + 1])
  }

  /** Where the regex `v(?<ver>\d+)` matches first, looking from `from` on. */
  function FirstMatch(text: seq<byte>, from: nat): (r: Option<nat>)
    ensures r.Some? ==> from <= r.value && MatchAt(text, r.value)
    ensures r.Some? ==> forall j :: from <= j < r.value ==> !MatchAt(text, j)
    ensures r.None? ==> forall j :: from <= j ==> !MatchAt(text, j)
    decreases |text| - from
  {
    if from + 1 >= |text| then None
    else if MatchAt(text, from) then Some(from)
    else FirstMatch(text, from + 1)
  }

  /** The greedy `\d+`: the longest run of digits starting at `k`. */
  function DigitRun(text: seq<byte>, k: nat): (r: seq<byte>)
    requires k <= |text|
    ensures k + |r| <= |text| && r == text[k..k + |r|]
    ensures forall i :: 0 <= i < |r| ==> IsDigit(r[i])
    ensures k + |r| == |text| || !IsDigit(text[k + |r|])
    decreases |text| - k
  {
    if k < |text| && IsDigit(text[k]) then [text[k]] + DigitRun(text, k + 1) else []
  }

  predicate AllDigits(ds: seq<byte>) {
    forall i :: 0 <= i < |ds| ==> IsDigit(ds[i])
  }

  /** The number a run of decimal digits denotes. */
  function DigitsValue(ds: seq<byte>): nat
    requires AllDigits(ds)
  {
    if ds == [] then 0 else DigitsValue(ds[..|ds| - 1]) * 10 + (ds[|ds| - 1] - 48) as int
  }

  /** `int.Parse` of a run of digits: the empty string and numbers above int.MaxValue fail. */
  function ParseInt(ds: seq<byte>): (r: Result<int>)
    requires AllDigits(ds)
    ensures ds == [] ==> r == Failure(FormatError)
    ensures ds != [] && DigitsValue(ds) > IntMax ==> r == Failure(OverflowError)
    ensures r.Success? <==> ds != [] && DigitsValue(ds) <= IntMax
    ensures r.Success? ==> r.value == DigitsValue(ds)
  {
    if ds == [] then Failure(FormatError)
    else if DigitsValue(ds) > IntMax then Failure(OverflowError)
    else Success(DigitsValue(ds))
  }

  /**
   * The version in a header: the digits after the leftmost `v` that has a
   * digit after it. With no such `v` the group is empty and int.Parse fails.
   */
  function VersionIn(text: seq<byte>): (r: Result<int>)
    ensures (forall j :: 0 <= j < |text| ==> !MatchAt(text, j)) ==> r == Failure(FormatError)
  {
    match FirstMatch(text, 0)
    case None => ParseInt([])
    case Some(k) => ParseInt(DigitRun(text, k + 1))
  }

  /** Lines 25-26 of `ParseBeatmap`: slicing fails on fewer than 30 bytes. */
  function ReadVersion(bytes: seq<byte>): (r: Result<int>)
    ensures |bytes| < HeaderLength ==> r == Failure(SliceOutOfRange)
    ensures |bytes| >= HeaderLength ==> r == VersionIn(bytes[..HeaderLength])
  {
    if |bytes| < HeaderLength then Failure(SliceOutOfRange) else VersionIn(bytes[..HeaderLength])
  }

  /** `hitObjects.Take(limit)`: the first `limit` objects, or all of them, or none for a negative limit. */
  function Take<T>(xs: seq<T>, limit: int): (r: seq<T>)
    ensures |r| == Min(Max(limit, 0), |xs|)
    ensures forall i :: 0 <= i < |r| ==> r[i] == xs[i]
  {
    xs[..Min(Max(limit, 0), |xs|)]
  }

  /**
   * `ParseBeatmap(byte[], int?)`: read the version, decode the bytes with
   * it and, given a limit, keep only the first hit objects. The beatmap a
   * decoder returns is not shared, so replacing its HitObjects list is a
   * functional update here.
   */
  function ParseBeatmap(bytes: seq<byte>, hitObjectsLimit: Option<int>,
                        decode: (int, seq<byte>) -> Result<Beatmap>): (r: Result<Beatmap>)
    ensures ReadVersion(bytes).Failure? ==> r == Failure(ReadVersion(bytes).error)
    ensures ReadVersion(bytes).Success? && decode(ReadVersion(bytes).value, bytes).Failure? ==>
      r == decode(ReadVersion(bytes).value, bytes)
    ensures ReadVersion(bytes).Success? && decode(ReadVersion(bytes).value, bytes).Success? ==>
      var decoded := decode(ReadVersion(bytes).value, bytes).value;
      && r.Success?
      && r.value.hitObjects == (if hitObjectsLimit.Some? then Take(decoded.hitObjects, hitObjectsLimit.value)
                                else decoded.hitObjects)
  {
    var version := ReadVersion(bytes);
    if version.Failure? then Failure(version.error)
    else
      var decoded := decode(version.value, bytes);
      if decoded.Failure? then decoded
      else if hitObjectsLimit.Some? then
        Success(decoded.value.(hitObjects := Take(decoded.value.hitObjects, hitObjectsLimit.value)))
      else decoded
  }

  /** Fewer than 30 bytes fail at the slice, whatever the decoder would do. */
  lemma ShortInputFailsBeforeDecoding(bytes: seq<byte>, hitObjectsLimit: Option<int>,
                                      decode: (int, seq<byte>) -> Result<Beatmap>)
    requires |bytes| < HeaderLength
    ensures ParseBeatmap(bytes, hitObjectsLimit, decode) == Failure(SliceOutOfRange)
  {
  }

  /** The limit keeps the first min(limit, n) objects in order and nothing else. */
  lemma TruncationKeepsPrefix(bytes: seq<byte>, limit: int, decode: (int, seq<byte>) -> Result<Beatmap>)
    requires ParseBeatmap(bytes, Some(limit), decode).Success?
    ensures var full := ParseBeatmap(bytes, None, decode);
      var cut := ParseBeatmap(bytes, Some(limit), decode);
      && full.Success?
      && cut.value.hitObjects == full.value.hitObjects[..Min(Max(limit, 0), |full.value.hitObjects|)]
  {
  }

  /** The decimal digits of `n`, most significant first, with no leading zero. */
  function Decimal(n: nat): (r: seq<byte>)
    ensures r != [] && AllDigits(r)
  {
    if n < 10 then [(48 + n) as byte] else Decimal(n / 10) + [(48 + n % 10) as byte]
  }

  /** Reading the digits of `n` back gives `n`. */
  lemma {:induction false} DecimalRoundTrip(n: nat)
    ensures DigitsValue(Decimal(n)) == n
  {
    if n >= 10 {
      DecimalRoundTrip(n / 10);
      assert Decimal(n)[..|Decimal(n)| - 1] == Decimal(n / 10);
    }
  }

  /** A digit run in the text followed by a non-digit (or the end) is what DigitRun reads. */
  lemma {:induction false} DigitRunOf(text: seq<byte>, k: nat, ds: seq<byte>)
    requires AllDigits(ds) && k + |ds| <= |text|
    requires forall i :: 0 <= i < |ds| ==> text[k + i] == ds[i]
    requires k + |ds| == |text| || !IsDigit(text[k + |ds|])
    ensures DigitRun(text, k) == ds
    decreases |ds|
  {
    if ds != [] {
      assert text[k + 0] == ds[0];
      forall i | 0 <= i < |ds[1..]| ensures text[k + 1 + i] == ds[1..][i] {
        assert text[k + (i + 1)] == ds[i + 1];
      }
      DigitRunOf(text, k + 1, ds[1..]);
      assert ds == [ds[0]] + ds[1..];
    }
  }

  /**
   * Writing the version after a prefix with no `v` and reading it back gives
   * it back, as long as the digits end inside the first 30 bytes and are not
   * followed by another digit there.
   */
  lemma VersionRoundTrip(prefix: seq<byte>, v: nat, rest: seq<byte>)
    requires forall i :: 0 <= i < |prefix| ==> prefix[i] != LetterV
    requires v <= IntMax
    requires |prefix| + 1 + |Decimal(v)| <= HeaderLength <= |prefix| + 1 + |Decimal(v)| + |rest|
    requires |prefix| + 1 + |Decimal(v)| == HeaderLength || !IsDigit(rest[0])
    ensures ReadVersion(prefix + [LetterV] + Decimal(v) + rest) == Success(v)
  {
    var ds := Decimal(v);
    HeaderLayout(prefix, ds, rest);
    DecimalRoundTrip(v);
    VersionAt((prefix + [LetterV] + ds + rest)[..HeaderLength], |prefix|, ds);
  }

  /** Where the prefix, the `v`, the digits and the rest sit in the first 30 bytes. */
  lemma HeaderLayout(prefix: seq<byte>, ds: seq<byte>, rest: seq<byte>)
    requires |prefix| + 1 + |ds| <= HeaderLength <= |prefix| + 1 + |ds| + |rest|
    ensures var text := (prefix + [LetterV] + ds + rest)[..HeaderLength];
      var k := |prefix|;
      && (forall j :: 0 <= j < k ==> text[j] == prefix[j])
      && text[k] == LetterV
      && (forall i :: 0 <= i < |ds| ==> text[k + 1 + i] == ds[i])
      && (k + 1 + |ds| < |text| ==> text[k + 1 + |ds|] == rest[0])
  {
    var full := prefix + [LetterV] + ds + rest;
    var text := full[..HeaderLength];
    var k := |prefix|;
    forall i | 0 <= i < |ds| ensures text[k + 1 + i] == ds[i] {
      assert text[k + 1 + i] == full[k + 1 + i];
    }
  }

  /**
   * A first `v` at `k` followed by a maximal run of digits: the version is
   * what int.Parse makes of the run.
   */
  lemma VersionAt(text: seq<byte>, k: nat, ds: seq<byte>)
    requires ds != [] && AllDigits(ds)
    requires k + 1 + |ds| <= |text|
    requires forall j :: 0 <= j < k ==> text[j] != LetterV
    requires text[k] == LetterV && forall i :: 0 <= i < |ds| ==> text[k + 1 + i] == ds[i]
    requires k + 1 + |ds| == |text| || !IsDigit(text[k + 1 + |ds|])
    ensures VersionIn(text) == ParseInt(ds)
  {
    DigitRunOf(text, k + 1, ds);
    assert text[k + 1 + 0] == ds[0];
    FirstLetterV(text, k);
    VersionFromMatch(text, k, ds);
  }

  /** The version is the value of the digit run after the first match. */
  lemma VersionFromMatch(text: seq<byte>, k: nat, ds: seq<byte>)
    requires FirstMatch(text, 0) == Some(k) && AllDigits(ds) && DigitRun(text, k + 1) == ds
    ensures VersionIn(text) == ParseInt(ds)
  {
  }

  /** A `v` at `k` with a digit after it and no `v` before it is the first match. */
  lemma FirstLetterV(text: seq<byte>, k: nat)
    requires k + 1 < |text| && text[k] == LetterV && IsDigit(text[k + 1])
    requires forall j :: 0 <= j < k ==> text[j] != LetterV
    ensures FirstMatch(text, 0) == Some(k)
  {
    forall j | 0 <= j < k ensures !MatchAt(text, j) {
      assert text[j] != LetterV;
    }
    NoEarlierMatch(text, k);
  }

  /** With a match at `k` and none before it, FirstMatch finds `k`. */
  lemma NoEarlierMatch(text: seq<byte>, k: nat)
    requires MatchAt(text, k)
    requires forall j :: 0 <= j < k ==> !MatchAt(text, j)
    ensures FirstMatch(text, 0) == Some(k)
  {
    var r := FirstMatch(text, 0);
    assert !(r.Some? && r.value > k);
  }

  // The retry loop of GetBeatmapBytes.

  /** What one call to the beatmap cache did: threw, or returned bytes. */
  datatype FetchOutcome = Throws | Fetched(bytes: seq<byte>)

  /** The bytes returned, the attempts used and the calls made to the cache. */
  datatype Retrieval = Retrieval(bytes: seq<byte>, attempts: nat, calls: nat)

  const MaxAttempts := 3

  /** A result of at most this many bytes is fetched once more. */
  const ShortLength := 30

  /**
   * The loop from attempt `attempt` on, `calls` calls made so far and
   * `bytes` the value of `beatmapBytes`. A call that throws leaves
   * `beatmapBytes` as it was and moves on to the next attempt; a result of
   * at most 30 bytes is fetched once more, and that second result ends the
   * loop whatever its length; a longer first result ends it at once.
   */
  function Retrieve(fetch: nat -> FetchOutcome, attempt: nat, calls: nat, bytes: seq<byte>): Retrieval
    requires 1 <= attempt
    decreases MaxAttempts + 1 - attempt
  {
    if attempt > MaxAttempts then Retrieval(bytes, MaxAttempts, calls)
    else match fetch(calls)
      case Throws => Retrieve(fetch, attempt + 1, calls + 1, bytes)
      case Fetched(first) =>
        if |first| > ShortLength then Retrieval(first, attempt, calls + 1)
        else match fetch(calls + 1)
          case Throws => Retrieve(fetch, attempt + 1, calls + 2, first)
          case Fetched(second) => Retrieval(second, attempt, calls + 2)
  }

  /** `GetBeatmapBytes`: the `for` loop over the three attempts, with its `try`/`catch`. */
  method GetBeatmapBytes(fetch: nat -> FetchOutcome) returns (beatmapBytes: seq<byte>, attempts: nat, calls: nat)
    ensures Retrieval(beatmapBytes, attempts, calls) == Retrieve(fetch, 1, 0, [])
  {
    beatmapBytes := [];
    calls := 0;
    var attempt := 1;
    while attempt <= MaxAttempts
      invariant 1 <= attempt <= MaxAttempts + 1
      invariant Retrieve(fetch, attempt, calls, beatmapBytes) == Retrieve(fetch, 1, 0, [])
    {
      var outcome := fetch(calls);
      calls := calls + 1;
      if outcome.Fetched? {
        beatmapBytes := outcome.bytes;
        if |beatmapBytes| <= ShortLength {
          var refetch := fetch(calls);
          calls := calls + 1;
          if refetch.Throws? {
            attempt := attempt + 1;
            continue;
          }
          beatmapBytes := refetch.bytes;
        }
        attempts := attempt;
        return;
      }
      attempt := attempt + 1;
    }
    attempts := MaxAttempts;
  }

  /** At most three attempts, each making one or two calls. */
  lemma {:induction false} RetrieveBounded(fetch: nat -> FetchOutcome, attempt: nat, calls: nat, bytes: seq<byte>)
    requires 1 <= attempt <= MaxAttempts + 1
    ensures var r := Retrieve(fetch, attempt, calls, bytes);
      && 1 <= r.attempts <= MaxAttempts
      && calls <= r.calls <= calls + 2 * (MaxAttempts + 1 - attempt)
      && (attempt <= MaxAttempts ==> calls + 1 <= r.calls)
    decreases MaxAttempts + 1 - attempt
  {
    if attempt <= MaxAttempts {
      RetrieveBounded(fetch, attempt + 1, calls + 1, bytes);
      RetrieveBounded(fetch, attempt + 1, calls + 2, bytes);
      if fetch(calls).Fetched? {
        RetrieveBounded(fetch, attempt + 1, calls + 2, fetch(calls).bytes);
      }
    }
  }

  /** Over the whole loop: one to six calls. */
  lemma CallsOfGetBeatmapBytes(fetch: nat -> FetchOutcome)
    ensures var r := Retrieve(fetch, 1, 0, []);
      1 <= r.attempts <= MaxAttempts && 1 <= r.calls <= 2 * MaxAttempts
  {
    RetrieveBounded(fetch, 1, 0, []);
  }

  /** A first result longer than 30 bytes is returned after one call. */
  lemma LongFirstResult(fetch: nat -> FetchOutcome)
    requires fetch(0).Fetched? && |fetch(0).bytes| > ShortLength
    ensures Retrieve(fetch, 1, 0, []) == Retrieval(fetch(0).bytes, 1, 1)
  {
  }

  /** A short result is fetched exactly once more, and the second result is returned unchecked. */
  lemma ShortResultRefetchedOnce(fetch: nat -> FetchOutcome, attempt: nat, calls: nat, bytes: seq<byte>)
    requires 1 <= attempt <= MaxAttempts
    requires fetch(calls).Fetched? && |fetch(calls).bytes| <= ShortLength && fetch(calls + 1).Fetched?
    ensures Retrieve(fetch, attempt, calls, bytes) == Retrieval(fetch(calls + 1).bytes, attempt, calls + 2)
  {
  }

  /** A refetch that throws keeps the short result and goes on to the next attempt. */
  lemma ThrowingRefetchKeepsShortResult(fetch: nat -> FetchOutcome, attempt: nat, calls: nat, bytes: seq<byte>)
    requires 1 <= attempt <= MaxAttempts
    requires fetch(calls).Fetched? && |fetch(calls).bytes| <= ShortLength && fetch(calls + 1).Throws?
    ensures Retrieve(fetch, attempt, calls, bytes) == Retrieve(fetch, attempt + 1, calls + 2, fetch(calls).bytes)
  {
  }

  /** When every call throws, the empty array comes back after three calls. */
  lemma AllCallsThrow(fetch: nat -> FetchOutcome)
    requires forall i :: fetch(i).Throws?
    ensures Retrieve(fetch, 1, 0, []) == Retrieval([], MaxAttempts, MaxAttempts)
  {
    assert Retrieve(fetch, 3, 2, []) == Retrieval([], MaxAttempts, MaxAttempts);
    assert Retrieve(fetch, 2, 1, []) == Retrieve(fetch, 3, 2, []);
  }

  /**
   * The bytes returned are the starting value or the bytes of one of the
   * calls the loop made; in particular they are empty or came from the cache.
   */
  lemma {:induction false} RetrievedBytesWereFetched(fetch: nat -> FetchOutcome, attempt: nat, calls: nat,
                                                     bytes: seq<byte>)
    requires 1 <= attempt <= MaxAttempts + 1
    ensures var r := Retrieve(fetch, attempt, calls, bytes);
      r.bytes == bytes || exists i :: calls <= i < r.calls && fetch(i) == Fetched(r.bytes)
    decreases MaxAttempts + 1 - attempt
  {
    if attempt <= MaxAttempts {
      var r := Retrieve(fetch, attempt, calls, bytes);
      match fetch(calls)
      case Throws =>
        RetrievedBytesWereFetched(fetch, attempt + 1, calls + 1, bytes);
      case Fetched(first) =>
        if |first| > ShortLength {
          assert fetch(calls) == Fetched(r.bytes);
        } else if fetch(calls + 1).Throws? {
          RetrievedBytesWereFetched(fetch, attempt + 1, calls + 2, first);
          RetrieveBounded(fetch, attempt + 1, calls + 2, first);
          if r.bytes == first {
            assert fetch(calls) == Fetched(r.bytes);
          }
        } else {
          assert fetch(calls + 1) == Fetched(r.bytes);
        }
    }
  }
}
