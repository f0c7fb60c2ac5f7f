/** The acceptance rules of the console prompts. Each prompt loops until an
    answer is accepted; the answers typed are modelled as a finite sequence,
    and `None` means the sequence ran out before any answer was accepted. */
module InputValidation {
  import opened Wrappers

  /** Largest scan length the period prompt accepts. */
  const MaxPeriod: int := 355

  /** One answer to the period prompt, after `int(...)`: either it raised
      (the answer is not an integer) or it produced an integer. */
  datatype PeriodEntry = NotAnInteger | Integer(value: int)

  predicate PeriodAccepted(e: PeriodEntry) {
    e.Integer? && 0 <= e.value <= MaxPeriod
  }

  /** The period prompt: the first integer answer in 0 .. 355 is returned,
      every other answer is asked again. */
  function PeriodInput(entries: seq<PeriodEntry>): (r: Option<int>)
    ensures r.Some? <==> exists i :: 0 <= i < |entries| && PeriodAccepted(entries[i])
    ensures r.Some? ==> 0 <= r.value <= MaxPeriod
    ensures r.Some? ==>
      exists i :: 0 <= i < |entries| && entries[i] == Integer(r.value)
        && forall j :: 0 <= j < i ==> !PeriodAccepted(entries[j])
    decreases |entries|
  {
    if |entries| == 0 then None
    else if PeriodAccepted(entries[0]) then Some(entries[0].value)
    else
      var r := PeriodInput(entries[1..]);
      assert forall i :: 1 <= i < |entries| ==> entries[i] == entries[1..][i - 1];
      r
  }

  /** Python's `str.isalpha`, restricted to ASCII letters. */
  predicate IsAlpha(c: char) {
    'a' <= c <= 'z' || 'A' <= c <= 'Z'
  }

  predicate IsUpperLetter(c: char) {
    'A' <= c <= 'Z'
  }

  /** Python's `str.upper` on one ASCII character. */
  function ToUpper(c: char): char {
    if 'a' <= c <= 'z' then (c as int - 32) as char else c
  }

  function Upper(s: string): (u: string)
    ensures |u| == |s|
    ensures forall i :: 0 <= i < |s| ==> u[i] == ToUpper(s[i])
    decreases |s|
  {
    if |s| == 0 then [] else [ToUpper(s[0])] + Upper(s[1..])
  }

  /** The origin/destination rule: `len(code) == 3 and code.isalpha()`. */
  predicate CodeAccepted(s: string) {
    |s| == 3 && forall i :: 0 <= i < |s| ==> IsAlpha(s[i])
  }

  /** The form a returned IATA code always has: three upper-case letters. */
  predicate IsIataCode(s: string) {
    |s| == 3 && forall i :: 0 <= i < |s| ==> IsUpperLetter(s[i])
  }

  /** The origin and destination prompts (they share one rule): the first
      accepted answer is returned upper-cased, every other answer is asked
      again. */
  function CodeInput(entries: seq<string>): (r: Option<string>)
    ensures r.Some? <==> exists i :: 0 <= i < |entries| && CodeAccepted(entries[i])
    ensures r.Some? ==> IsIataCode(r.value)
    ensures r.Some? ==>
      exists i :: 0 <= i < |entries| && CodeAccepted(entries[i]) && r.value == Upper(entries[i])
        && forall j :: 0 <= j < i ==> !CodeAccepted(entries[j])
    decreases |entries|
  {
    if |entries| == 0 then None
    else if CodeAccepted(entries[0]) then Some(Upper(entries[0]))
    else
      var r := CodeInput(entries[1..]);
      assert forall i :: 1 <= i < |entries| ==> entries[i] == entries[1..][i - 1];
      r
  }

  /** Upper-casing neither makes a rejected answer acceptable nor the other
      way round. */
  lemma UpperKeepsAcceptance(s: string)
    ensures CodeAccepted(Upper(s)) <==> CodeAccepted(s)
  {
  }

  /** A code the prompt returned is already in its final form: answering the
      prompt with it returns it unchanged. */
  lemma CodeInputIdempotent(entries: seq<string>)
    requires CodeInput(entries).Some?
    ensures CodeInput([CodeInput(entries).value]) == CodeInput(entries)
  {
    var c := CodeInput(entries).value;
    assert CodeAccepted(c);
    assert Upper(c) == c;
  }
}
