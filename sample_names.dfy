/** The sample naming convention `([nmb])([1-6])_([0-9]+)`: pickup tag, string digit and
    recorded fret, searched for anywhere in the lower-cased clip name. */
module SampleNames {
  import opened Audio
  import opened Int32

  /** The bank's key for a recorded sample. */
  datatype SampleKey = SampleKey(pickup: Pickup, stringNumber: int, fret: int)

  /** What parsing a clip name yields: no match, a fret too large for `int.Parse`, or a key. */
  datatype NameParse = NoMatch | Overflow | Parsed(key: SampleKey)

  function LowerChar(c: char): char {
    if 'A' <= c <= 'Z' then (c as int + 32) as char else c
  }

  function Lower(s: string): (r: string)
    ensures |r| == |s|
  {
    if s == [] then [] else [LowerChar(s[0])] + Lower(s[1..])
  }

  /** Lower-casing works character by character. */
  lemma {:induction false} LowerEach(s: string)
    ensures forall i :: 0 <= i < |s| ==> Lower(s)[i] == LowerChar(s[i])
    decreases |s|
  {
    if s != [] {
      LowerEach(s[1..]);
      assert forall i :: 1 <= i < |s| ==> Lower(s)[i] == Lower(s[1..])[i - 1];
    }
  }

  predicate IsTag(c: char) { c == 'n' || c == 'm' || c == 'b' }
  predicate IsStringDigit(c: char) { '1' <= c <= '6' }
  predicate IsDigit(c: char) { '0' <= c <= '9' }

  function TagPickup(c: char): Pickup
    requires IsTag(c)
  {
    if c == 'n' then Neck else if c == 'm' then Middle else Bridge
  }

  function TagChar(p: Pickup): (c: char)
    ensures IsTag(c) && TagPickup(c) == p
  {
    match p
    case Neck => 'n'
    case Middle => 'm'
    case Bridge => 'b'
  }

  /** The pattern matches starting at index `i` (its digit run may go on beyond `i + 3`). */
  predicate MatchesAt(s: string, i: int) {
    0 <= i && i + 3 < |s|
    && IsTag(s[i]) && IsStringDigit(s[i + 1]) && s[i + 2] == '_' && IsDigit(s[i + 3])
  }

  /** The leftmost index at or after `from` where the pattern matches. */
  function FirstMatchFrom(s: string, from: nat): (r: Option<nat>)
    ensures r.Some? ==> from <= r.value && MatchesAt(s, r.value)
    decreases |s| - from
  {
    if from + 3 >= |s| then None
    else if MatchesAt(s, from) then Some(from)
    else FirstMatchFrom(s, from + 1)
  }

  /** The match found is the leftmost one, and None means there is none. */
  lemma {:induction false} FirstMatchIsLeftmost(s: string, from: nat)
    ensures var r := FirstMatchFrom(s, from);
      (r.Some? ==> forall j :: from <= j < r.value ==> !MatchesAt(s, j))
      && (r.None? ==> forall j :: from <= j ==> !MatchesAt(s, j))
    decreases |s| - from
  {
    if from + 3 < |s| && !MatchesAt(s, from) {
      FirstMatchIsLeftmost(s, from + 1);
    }
  }

  /** The length of the run of decimal digits starting at `i`: the greedy `[0-9]+`. */
  function DigitRun(s: string, i: nat): (n: nat)
    requires i <= |s|
    ensures i + n <= |s|
    decreases |s| - i
  {
    if i < |s| && IsDigit(s[i]) then 1 + DigitRun(s, i + 1) else 0
  }

  /** The run is all digits and is not followed by one: the match is greedy. */
  lemma {:induction false} DigitRunIsGreedy(s: string, i: nat)
    requires i <= |s|
    ensures AllDigits(s[i .. i + DigitRun(s, i)])
    ensures i + DigitRun(s, i) == |s| || !IsDigit(s[i + DigitRun(s, i)])
    decreases |s| - i
  {
    if i < |s| && IsDigit(s[i]) {
      DigitRunIsGreedy(s, i + 1);
      var n := DigitRun(s, i);
      var run := s[i .. i + n];
      var tail := s[i + 1 .. i + n];
      assert AllDigits(tail);
      forall j | 0 <= j < n ensures IsDigit(run[j]) {
        if j > 0 {
          assert run[j] == tail[j - 1];
        }
      }
    }
  }

  predicate AllDigits(ds: string) {
    forall j :: 0 <= j < |ds| ==> IsDigit(ds[j])
  }

  function DigitValue(c: char): nat requires IsDigit(c) { c as int - '0' as int }

  /** The value of a decimal numeral, most significant digit first. */
  function DecimalValue(ds: string): nat
    requires AllDigits(ds)
    decreases |ds|
  {
    if ds == [] then 0
    else DecimalValue(ds[..|ds| - 1]) * 10 + DigitValue(ds[|ds| - 1])
  }

  /** Parse a clip name as the bank's loader does: lower-case it, take the first match,
      map the tag to a pickup, and read string and fret with `int.Parse`. */
  function ParseClipName(name: string): (r: NameParse)
    ensures r.Parsed? ==> 1 <= r.key.stringNumber <= 6 && 0 <= r.key.fret <= IntMax
  {
    var s := Lower(name);
    match FirstMatchFrom(s, 0)
    case None => NoMatch
    case Some(i) =>
      DigitRunIsGreedy(s, i + 3);
      var n := DigitRun(s, i + 3);
      var fret := DecimalValue(s[i + 3 .. i + 3 + n]);
      if fret > IntMax then Overflow
      else Parsed(SampleKey(TagPickup(s[i]), DigitValue(s[i + 1]), fret))
  }

  /** A name is rejected exactly when the pattern matches nowhere in its lower-cased form. */
  lemma NoMatchMeansNowhere(name: string)
    ensures ParseClipName(name).NoMatch? ==> forall j :: 0 <= j ==> !MatchesAt(Lower(name), j)
    ensures (forall j :: 0 <= j ==> !MatchesAt(Lower(name), j)) ==> ParseClipName(name).NoMatch?
  {
    var s := Lower(name);
    FirstMatchIsLeftmost(s, 0);
    match FirstMatchFrom(s, 0)
    case Some(i) =>
      assert MatchesAt(Lower(name), i);
      assert !ParseClipName(name).NoMatch?;
      assert !(forall j :: 0 <= j ==> !MatchesAt(Lower(name), j));
    case None =>
      assert ParseClipName(name) == NoMatch;
  }

  function DigitChar(d: nat): (c: char)
    requires d < 10
    ensures IsDigit(c) && DigitValue(c) == d
  {
    ('0' as int + d) as char
  }

  /** The shortest decimal numeral of `n`. */
  function DecimalString(n: nat): (ds: string)
    ensures AllDigits(ds) && |ds| >= 1
    decreases n
  {
    if n < 10 then [DigitChar(n)] else DecimalString(n / 10) + [DigitChar(n % 10)]
  }

  lemma {:induction false} DecimalRoundTrip(n: nat)
    ensures DecimalValue(DecimalString(n)) == n
    decreases n
  {
    if n >= 10 {
      var ds := DecimalString(n);
      assert ds[..|ds| - 1] == DecimalString(n / 10);
      DecimalRoundTrip(n / 10);
    }
  }

  /** The canonical name of a recorded sample, such as `n3_7`. */
  function CanonicalName(k: SampleKey): string
    requires 1 <= k.stringNumber <= 6 && k.fret >= 0
  {
    [TagChar(k.pickup), DigitChar(k.stringNumber), '_'] + DecimalString(k.fret)
  }

  lemma LowerOfCanonical(k: SampleKey)
    requires 1 <= k.stringNumber <= 6 && k.fret >= 0
    ensures Lower(CanonicalName(k)) == CanonicalName(k)
  {
    var s := CanonicalName(k);
    LowerEach(s);
    assert forall i :: 0 <= i < |s| ==> LowerChar(s[i]) == s[i];
  }

  /** Round trip: the loader reads back every key from its canonical name. */
  lemma ParseCanonicalName(k: SampleKey)
    requires 1 <= k.stringNumber <= 6 && 0 <= k.fret <= IntMax
    ensures ParseClipName(CanonicalName(k)) == Parsed(k)
  {
    var s := CanonicalName(k);
    LowerOfCanonical(k);
    assert MatchesAt(s, 0);
    assert FirstMatchFrom(s, 0) == Some(0);
    var n := DigitRun(s, 3);
    DigitRunIsGreedy(s, 3);
    assert s[3..] == DecimalString(k.fret);
    assert n == |s| - 3;
    assert s[3 .. 3 + n] == DecimalString(k.fret);
    DecimalRoundTrip(k.fret);
    assert TagPickup(s[0]) == k.pickup && DigitValue(s[1]) == k.stringNumber;
  }
}
