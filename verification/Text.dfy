/** The two text primitives the services lean on: JavaScript's `\s` and `String.prototype.trim`. */
module Text {
  predicate IsSpace(c: char) {
    || '\U{9}' <= c <= '\U{D}'
    || c == ' ' || c == '\U{A0}' || c == '\U{1680}'
    || '\U{2000}' <= c <= '\U{200A}'
    || c == '\U{2028}' || c == '\U{2029}' || c == '\U{202F}' || c == '\U{205F}'
    || c == '\U{3000}' || c == '\U{FEFF}'
  }

  function TrimStart(s: string): string {
    if s != [] && IsSpace(s[0]) then TrimStart(s[1..]) else s
  }

  function TrimEnd(s: string): string {
    if s != [] && IsSpace(s[|s| - 1]) then TrimEnd(s[..|s| - 1]) else s
  }

  function Trim(s: string): string {
    TrimEnd(TrimStart(s))
  }

  predicate IsTrimmed(s: string) {
    s == [] || (!IsSpace(s[0]) && !IsSpace(s[|s| - 1]))
  }

  predicate IsBlank(s: string) {
    Trim(s) == []
  }

  /** Trimming leaves a trimmed text, and leaves exactly the trimmed texts alone. */
  lemma TrimIsTrimmed(s: string)
    ensures IsTrimmed(Trim(s))
    ensures Trim(s) == s <==> IsTrimmed(s)
    ensures forall c | c in Trim(s) :: c in s
  {
    TrimStartFacts(s);
    TrimEndFacts(TrimStart(s));
  }

  lemma {:induction false} TrimStartCuts(s: string) returns (left: string)
    ensures s == left + TrimStart(s) && forall c | c in left :: IsSpace(c)
  {
    left := [];
    if s != [] && IsSpace(s[0]) {
      left := TrimStartCuts(s[1..]);
      left := [s[0]] + left;
    }
  }

  lemma {:induction false} TrimEndCuts(s: string) returns (right: string)
    ensures s == TrimEnd(s) + right && forall c | c in right :: IsSpace(c)
  {
    right := [];
    if s != [] && IsSpace(s[|s| - 1]) {
      right := TrimEndCuts(s[..|s| - 1]);
      right := right + [s[|s| - 1]];
    }
  }

  /** Only white space is cut, and only at the two ends. */
  lemma TrimCutsSpace(s: string) returns (left: string, right: string)
    ensures s == left + Trim(s) + right && forall c | c in left || c in right :: IsSpace(c)
  {
    left := TrimStartCuts(s);
    right := TrimEndCuts(TrimStart(s));
  }

  lemma {:induction false} TrimStartFacts(s: string)
    ensures TrimStart(s) == [] || !IsSpace(TrimStart(s)[0])
    ensures |TrimStart(s)| <= |s|
    ensures s == [] || !IsSpace(s[0]) ==> TrimStart(s) == s
    ensures TrimStart(s) == s ==> s == [] || !IsSpace(s[0])
    ensures forall c | c in TrimStart(s) :: c in s
  {
    if s != [] && IsSpace(s[0]) {
      TrimStartFacts(s[1..]);
    }
  }

  lemma {:induction false} TrimEndFacts(s: string)
    ensures TrimEnd(s) <= s
    ensures TrimEnd(s) == [] || !IsSpace(TrimEnd(s)[|TrimEnd(s)| - 1])
    ensures s == [] || !IsSpace(s[|s| - 1]) ==> TrimEnd(s) == s
  {
    if s != [] && IsSpace(s[|s| - 1]) {
      TrimEndFacts(s[..|s| - 1]);
    }
  }
}
