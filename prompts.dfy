/** `PromptBuilder` of legal-ai-2-tool/js/prompts.js: input sanitising and per-mode validation.
    (The prompt templates in that file are commented out in the source.) */
module Prompts {
  import opened Js

  /** The literal that `/javascript:/gi` looks for. */
  const Scheme := "javascript:"

  /** `/javascript:/i` matches at the start of `s`. Without the `u` flag such a regex folds case
      only where both sides of the folding are ASCII or both are not, so for this all-ASCII
      pattern it is ASCII case-insensitive equality. */
  predicate MatchesScheme(s: string) {
    |s| >= |Scheme| && forall i :: 0 <= i < |Scheme| ==> LowerChar(s[i]) == Scheme[i]
  }

  /** `.replace(/[<>]/g, '')` */
  function StripAngles(s: string): (r: string)
    ensures '<' !in r && '>' !in r
    ensures |r| <= |s|
    ensures ('<' !in s && '>' !in s) ==> r == s
  {
    if s == [] then []
    else (if s[0] == '<' || s[0] == '>' then [] else [s[0]]) + StripAngles(s[1..])
  }

  /** `.replace(/javascript:/gi, '')`: one left-to-right pass that deletes each non-overlapping
      match and resumes after it. */
  function StripScheme(s: string): (r: string)
    ensures |r| <= |s|
    decreases |s|
  {
    if s == [] then []
    else if MatchesScheme(s) then StripScheme(s[|Scheme|..])
    else [s[0]] + StripScheme(s[1..])
  }

  lemma {:induction false} StripAnglesSubsequence(s: string)
    ensures IsSubsequence(StripAngles(s), s)
    decreases |s|
  {
    if s != [] {
      StripAnglesSubsequence(s[1..]);
      assert s == [s[0]] + s[1..];
      if s[0] == '<' || s[0] == '>' {
        assert StripAngles(s) == StripAngles(s[1..]);
        SubsequenceDrop(s[0], StripAngles(s[1..]), s[1..]);
      } else {
        assert StripAngles(s) == [s[0]] + StripAngles(s[1..]);
        SubsequenceCons(s[0], StripAngles(s[1..]), s[1..]);
      }
    }
  }

  /** Every character other than the brackets is kept as often as it occurs. */
  lemma {:induction false} StripAnglesCounts(s: string)
    ensures forall c :: c != '<' && c != '>' ==> multiset(StripAngles(s))[c] == multiset(s)[c]
    decreases |s|
  {
    if s != [] {
      StripAnglesCounts(s[1..]);
      assert s == [s[0]] + s[1..];
      if s[0] == '<' || s[0] == '>' {
        assert StripAngles(s) == StripAngles(s[1..]);
      } else {
        assert StripAngles(s) == [s[0]] + StripAngles(s[1..]);
      }
    }
  }

  lemma {:induction false} StripSchemeSubsequence(s: string)
    ensures IsSubsequence(StripScheme(s), s)
    decreases |s|
  {
    if s != [] {
      if MatchesScheme(s) {
        StripSchemeSubsequence(s[|Scheme|..]);
        InfixIsSubsequence(s, |Scheme|, |s|);
        assert s[|Scheme|..|s|] == s[|Scheme|..];
        SubsequenceTransitive(StripScheme(s[|Scheme|..]), s[|Scheme|..], s);
      } else {
        StripSchemeSubsequence(s[1..]);
        assert s == [s[0]] + s[1..];
        SubsequenceCons(s[0], StripScheme(s[1..]), s[1..]);
      }
    }
  }

  lemma {:induction false} SubsequenceElements(a: string, b: string, c: char)
    requires IsSubsequence(a, b)
    requires c !in b
    ensures c !in a
    decreases |b|
  {
    if a != [] {
      if a[0] == b[0] && IsSubsequence(a[1..], b[1..]) {
        SubsequenceElements(a[1..], b[1..], c);
        assert a == [a[0]] + a[1..];
      } else {
        SubsequenceElements(a, b[1..], c);
      }
    }
  }

  /** Where no match of the pattern starts anywhere, the pass deletes nothing. */
  lemma {:induction false} StripSchemeNoMatch(s: string)
    requires forall i :: 0 <= i < |s| ==> !MatchesScheme(s[i..])
    ensures StripScheme(s) == s
    decreases |s|
  {
    if s != [] {
      assert !MatchesScheme(s[0..]) && s[0..] == s;
      forall i | 0 <= i < |s[1..]| ensures !MatchesScheme(s[1..][i..]) {
        assert s[1..][i..] == s[i + 1..];
      }
      StripSchemeNoMatch(s[1..]);
      assert s == [s[0]] + s[1..];
    }
  }

  /** `sanitizeInput(input)`: a falsy input gives `''`; otherwise trim, delete every `<` and `>`,
      then delete the matches of `javascript:` found in one case-insensitive pass. The result is
      a subsequence of the input and carries no angle bracket. */
  function SanitizeInput(input: Field): (r: string)
    ensures !Truthy(input) ==> r == ""
    ensures '<' !in r && '>' !in r
    ensures input.Some? ==> IsSubsequence(r, input.value) && |r| <= |input.value|
  {
    if !Truthy(input) then ""
    else
      var s := input.value;
      var t := Trim(s);
      var a := StripAngles(t);
      var r := StripScheme(a);
      InfixIsSubsequence(s, Leading(s), Leading(s) + |t|);
      StripAnglesSubsequence(t);
      StripSchemeSubsequence(a);
      SubsequenceTransitive(r, a, t);
      SubsequenceTransitive(r, t, s);
      SubsequenceLength(r, s);
      SubsequenceElements(r, a, '<');
      SubsequenceElements(r, a, '>');
      r
  }

  lemma MismatchAt(s: string, k: nat)
    requires k < |Scheme| && k < |s| && LowerChar(s[k]) != Scheme[k]
    ensures !MatchesScheme(s)
  {
  }

  lemma MatchesExactly(s: string)
    requires |s| >= |Scheme| && s[..|Scheme|] == Scheme
    ensures MatchesScheme(s)
  {
    assert forall i :: 0 <= i < |Scheme| ==> s[i] == Scheme[i];
  }

  lemma TooShort(s: string)
    requires |s| < |Scheme|
    ensures StripScheme(s) == s
  {
    StripSchemeNoMatch(s);
  }

  lemma NoAngles(s: string)
    requires forall i :: 0 <= i < |s| ==> s[i] != '<' && s[i] != '>'
    ensures StripAngles(s) == s
  {
  }

  /** Where no match starts inside `a`, the pass keeps all of `a`. */
  lemma {:induction false} KeepPrefix(a: string, t: string)
    requires forall i :: 0 <= i < |a| ==> !MatchesScheme(a[i..] + t)
    ensures StripScheme(a + t) == a + StripScheme(t)
    decreases |a|
  {
    if a != [] {
      assert a[0..] + t == a + t;
      assert !MatchesScheme(a + t);
      assert (a + t)[0] == a[0] && (a + t)[1..] == a[1..] + t;
      forall i | 0 <= i < |a[1..]| ensures !MatchesScheme(a[1..][i..] + t) {
        assert a[1..][i..] == a[i + 1..];
      }
      KeepPrefix(a[1..], t);
      calc {
        StripScheme(a + t);
        [a[0]] + StripScheme(a[1..] + t);
        [a[0]] + (a[1..] + StripScheme(t));
        { assert a == [a[0]] + a[1..]; }
        a + StripScheme(t);
      }
    } else {
      assert a + t == t;
    }
  }

  /** A match at the start is deleted and the pass resumes after it. */
  lemma DropMatch(b: string)
    ensures StripScheme(Scheme + b) == StripScheme(b)
  {
    var s := Scheme + b;
    assert s[..|Scheme|] == Scheme;
    MatchesExactly(s);
    assert s[|Scheme|..] == b;
  }

  lemma SplitSchemeSpelling()
    ensures "javajavascript:script:" == "java" + (Scheme + "script:")
    ensures "java" + "script:" == Scheme
  {
  }

  lemma NoMatchInJava()
    ensures forall i :: 0 <= i < |"java"| ==> !MatchesScheme("java"[i..] + (Scheme + "script:"))
  {
    var t := Scheme + "script:";
    assert "java"[0..] + t == "java" + t;
    assert ("java" + t)[4] == 'j';
    MismatchAt("java"[0..] + t, 4);
    MismatchAt("java"[1..] + t, 0);
    MismatchAt("java"[2..] + t, 0);
    MismatchAt("java"[3..] + t, 0);
  }

  lemma {:induction false} StripSchemeExample()
    ensures StripScheme("javajavascript:script:") == "javascript:"
  {
    NoMatchInJava();
    KeepPrefix("java", Scheme + "script:");
    DropMatch("script:");
    TooShort("script:");
    SplitSchemeSpelling();
  }

  /** On a truthy input sanitising is the three passes in order. */
  lemma SanitizeSteps(s: string)
    requires s != []
    ensures SanitizeInput(Some(s)) == StripScheme(StripAngles(Trim(s)))
  {
  }

  /** On a trimmed input without angle brackets only the `javascript:` pass acts. */
  lemma SanitizeTrimmed(s: string)
    requires s != [] && IsTrimmed(s)
    requires forall i :: 0 <= i < |s| ==> s[i] != '<' && s[i] != '>'
    ensures SanitizeInput(Some(s)) == StripScheme(s)
  {
    SanitizeSteps(s);
    TrimOfTrimmed(s);
    NoAngles(s);
  }

  /** The result need not be free of the pattern, so sanitising is not idempotent: deleting the
      inner match of `javajavascript:script:` joins its halves into a new one, which a second
      pass then deletes. */
  lemma SanitizeNotIdempotent()
    ensures SanitizeInput(Some("javajavascript:script:")) == "javascript:"
    ensures SanitizeInput(Some("javascript:")) == ""
  {
    ExampleIsClean();
    SanitizeTrimmed("javajavascript:script:");
    StripSchemeExample();
    SchemeSanitized();
  }

  lemma ExampleIsClean()
    ensures IsTrimmed("javajavascript:script:")
    ensures forall i :: 0 <= i < |"javajavascript:script:"| ==>
      "javajavascript:script:"[i] != '<' && "javajavascript:script:"[i] != '>'
  {
  }

  lemma SchemeAlone()
    ensures StripScheme(Scheme) == []
  {
    DropMatch([]);
    assert Scheme + [] == Scheme;
  }

  lemma SchemeSanitized()
    ensures SanitizeInput(Some(Scheme)) == ""
  {
    SanitizeTrimmed(Scheme);
    SchemeAlone();
  }

  lemma AngleSpacePieces()
    ensures Trim("< a") == "< a"
    ensures StripAngles("< a") == " a"
  {
    TrimOfTrimmed("< a");
  }

  /** Trimming happens before the deletions, so the result need not be trimmed. */
  lemma SanitizeMayLeaveSpace()
    ensures SanitizeInput(Some("< a")) == " a"
  {
    SanitizeSteps("< a");
    AngleSpacePieces();
    TooShort(" a");
  }

  /** The `inputs` object handed to `validateInputs`; `kind` is its `type` property. */
  datatype PromptInputs = PromptInputs(kind: Field, details: Field, issue: Field, query: Field, topic: Field)

  /** The truthiness of `validateInputs(mode, inputs)`: known modes need both of their fields,
      every other mode is refused. */
  function ValidateInputs(mode: string, inputs: PromptInputs): (ok: bool)
    ensures ok ==> mode == "contract" || mode == "research" || mode == "opinion"
    ensures mode == "contract" ==> (ok <==> Truthy(inputs.kind) && Truthy(inputs.details))
    ensures mode == "research" ==> (ok <==> Truthy(inputs.issue) && Truthy(inputs.query))
    ensures mode == "opinion" ==> (ok <==> Truthy(inputs.topic) && Truthy(inputs.query))
  {
    match mode
    case "contract" => Truthy(inputs.kind) && Truthy(inputs.details)
    case "research" => Truthy(inputs.issue) && Truthy(inputs.query)
    case "opinion" => Truthy(inputs.topic) && Truthy(inputs.query)
    case _ => false
  }
}
