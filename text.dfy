/**
 * String helpers shared by the server and the browser code: Python's
 * `str.strip`, ASCII case mapping (JavaScript `toLowerCase`/`toUpperCase`
 * restricted to the characters that occur in hex addresses and status
 * names), Python prefix slicing, and the blank/length rules of a REST
 * framework `CharField`.
 */
module Text {
  import opened Wrappers

  /** The characters Python's `str.isspace` accepts, which `str.strip()` removes. */
  predicate IsSpace(c: char) {
    c == ' ' || ('\t' <= c <= '\r') || ('\U{1C}' <= c <= '\U{1F}')
    || c == '\U{85}' || c == '\U{A0}' || c == '\U{1680}'
    || ('\U{2000}' <= c <= '\U{200A}') || c == '\U{2028}' || c == '\U{2029}'
    || c == '\U{202F}' || c == '\U{205F}' || c == '\U{3000}'
  }

  function StripLeft(s: string): (r: string)
    ensures |r| <= |s| && r == s[|s| - |r|..]
    ensures r == [] || !IsSpace(r[0])
  {
    if |s| > 0 && IsSpace(s[0]) then StripLeft(s[1..]) else s
  }

  function StripRight(s: string): (r: string)
    ensures |r| <= |s| && r == s[..|r|]
    ensures r == [] || !IsSpace(r[|r| - 1])
  {
    if |s| > 0 && IsSpace(s[|s| - 1]) then StripRight(s[..|s| - 1]) else s
  }

  /** Only whitespace is removed from the front. */
  lemma {:induction false} StripLeftRemovesSpace(s: string)
    ensures forall i :: 0 <= i < |s| - |StripLeft(s)| ==> IsSpace(s[i])
  {
    if |s| > 0 && IsSpace(s[0]) {
      StripLeftRemovesSpace(s[1..]);
      forall i | 1 <= i < |s| - |StripLeft(s)| ensures IsSpace(s[i]) {
        assert s[i] == s[1..][i - 1];
      }
    }
  }

  /** Only whitespace is removed from the back. */
  lemma {:induction false} StripRightRemovesSpace(s: string)
    ensures forall i :: |StripRight(s)| <= i < |s| ==> IsSpace(s[i])
  {
    if |s| > 0 && IsSpace(s[|s| - 1]) {
      StripRightRemovesSpace(s[..|s| - 1]);
      forall i | |StripRight(s)| <= i < |s| - 1 ensures IsSpace(s[i]) {
        assert s[i] == s[..|s| - 1][i];
      }
    }
  }

  /** How many leading characters `s.strip()` removes. */
  function StripStart(s: string): (n: nat)
    ensures n <= |s|
  {
    |s| - |StripLeft(s)|
  }

  /** Python `s.strip()`: the infix left once whitespace is removed from both ends. */
  function Strip(s: string): (r: string)
    ensures StripStart(s) + |r| <= |s| && r == s[StripStart(s)..StripStart(s) + |r|]
    ensures r == [] || (!IsSpace(r[0]) && !IsSpace(r[|r| - 1]))
  {
    var l := StripLeft(s);
    var r := StripRight(l);
    assert r == s[|s| - |l|..][..|r|] == s[|s| - |l|..|s| - |l| + |r|];
    r
  }

  /** Everything `s.strip()` removes is whitespace. */
  lemma StripRemovesOnlySpace(s: string)
    ensures forall i :: 0 <= i < StripStart(s) ==> IsSpace(s[i])
    ensures forall i :: StripStart(s) + |Strip(s)| <= i < |s| ==> IsSpace(s[i])
  {
    var l := StripLeft(s);
    StripLeftRemovesSpace(s);
    StripRightRemovesSpace(l);
    forall i | StripStart(s) + |Strip(s)| <= i < |s| ensures IsSpace(s[i]) {
      assert s[i] == l[i - StripStart(s)];
    }
  }

  /** Stripping has nothing left to remove the second time. */
  lemma StripIdempotent(s: string)
    ensures Strip(Strip(s)) == Strip(s)
  {
    var t := Strip(s);
    assert t == [] || !IsSpace(t[0]);
    assert StripLeft(t) == t;
    assert t == [] || !IsSpace(t[|t| - 1]);
    assert StripRight(t) == t;
  }

  /** A string is blank, in the sense of the REST framework's CharField, when stripping leaves nothing. */
  predicate IsBlank(s: string) {
    Strip(s) == []
  }

  function LowerChar(c: char): char {
    if 'A' <= c <= 'Z' then (c as int + 32) as char else c
  }

  function UpperChar(c: char): char {
    if 'a' <= c <= 'z' then (c as int - 32) as char else c
  }

  function Lower(s: string): (r: string)
    ensures |r| == |s| && forall i :: 0 <= i < |s| ==> r[i] == LowerChar(s[i])
  {
    if s == [] then [] else [LowerChar(s[0])] + Lower(s[1..])
  }

  /** Python `s[:n]` for a non-negative or negative `n`. */
  function PyPrefix<T>(s: seq<T>, n: int): (r: seq<T>)
    ensures r <= s
    ensures |r| == if n >= 0 then (if n <= |s| then n else |s|) else (if |s| + n >= 0 then |s| + n else 0)
    ensures n >= |s| ==> r == s
  {
    if 0 <= n then s[..if n <= |s| then n else |s|]
    else s[..if |s| + n >= 0 then |s| + n else 0]
  }

  /** The NUL character, which every REST framework `CharField` refuses. */
  const NUL: char := 0 as char

  /** The value holds no NUL character; defined by recursion so that it is unfolded only on demand. */
  predicate NulFree(s: string) {
    s == [] || (s[0] != NUL && NulFree(s[1..]))
  }

  lemma {:induction false} NulFreeMeansNoNul(s: string)
    ensures NulFree(s) <==> NUL !in s
  {
    if s != [] {
      NulFreeMeansNoNul(s[1..]);
      assert s == [s[0]] + s[1..];
    }
  }

  /** What one of a `CharField`'s validators says about a non-blank value. */
  datatype ValidatorError = TooLong(maxLength: nat) | NullCharacter

  /** Why a REST framework `CharField` refused its input: blank, or the messages of every validator that failed. */
  datatype FieldError = Blank | ValidatorsFailed(errors: seq<ValidatorError>)

  /**
   * The validators a `CharField` installs, in order, run on the stripped
   * value: the length check when there is a `max_length`, then the
   * prohibition of NUL characters. Every failing one is reported.
   */
  function ValidatorErrors(v: string, maxLength: Option<nat>): (errs: seq<ValidatorError>)
    ensures (exists m: nat :: TooLong(m) in errs) <==> maxLength.Some? && |v| > maxLength.value
    ensures forall m: nat :: TooLong(m) in errs ==> maxLength == Some(m)
    ensures NullCharacter in errs <==> !NulFree(v)
    ensures |errs| <= 2
  {
    (if maxLength.Some? && |v| > maxLength.value then [TooLong(maxLength.value)] else [])
      + (if NulFree(v) then [] else [NullCharacter])
  }

  /**
   * A required `CharField(max_length=m)` with the framework's defaults
   * (`trim_whitespace=True`, `allow_blank=False`): a blank value is
   * refused, otherwise the stripped value goes through the validators.
   */
  function CharField(raw: string, maxLength: Option<nat>): (r: Result<string, FieldError>)
    ensures r.Success? <==> !IsBlank(raw) && (maxLength.Some? ==> |Strip(raw)| <= maxLength.value) && NulFree(Strip(raw))
    ensures r.Success? ==> r.value == Strip(raw) && r.value != []
    ensures r == Failure(Blank) <==> IsBlank(raw)
    ensures r.Failure? && !IsBlank(raw) ==> r.error.ValidatorsFailed? && r.error.errors != []
    ensures r.Failure? && !IsBlank(raw) ==> r.error.errors == ValidatorErrors(Strip(raw), maxLength)
  {
    if IsBlank(raw) then Failure(Blank)
    else
      var errs := ValidatorErrors(Strip(raw), maxLength);
      if errs == [] then Success(Strip(raw)) else Failure(ValidatorsFailed(errs))
  }
}
