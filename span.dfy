/**
 * Locating the JSON candidate in the model's raw text:
 * `rawText.match(/\{[\s\S]*\}/)` (app.js:114). `[\s\S]` matches any
 * character, so a match is any substring of two or more characters that
 * starts with `{` and ends with `}`. The regular-expression engine takes the
 * leftmost starting position at which some match exists and, because `*` is
 * greedy, the longest match from there.
 */
module Span {
  import opened Wrappers

  /** The greedy part: backtracking from the end of the text, the position
      of the last `}` in s[lo..hi]. */
  function LastCloseIn(s: string, lo: nat, hi: nat): (r: Option<nat>)
    requires lo <= hi <= |s|
    ensures r.Some? ==> lo <= r.value < hi && s[r.value] == '}'
    ensures r.Some? ==> forall k :: r.value < k < hi ==> s[k] != '}'
    ensures r.None? ==> forall k :: lo <= k < hi ==> s[k] != '}'
    decreases hi - lo
  {
    if hi == lo then None
    else if s[hi - 1] == '}' then Some(hi - 1)
    else LastCloseIn(s, lo, hi - 1)
  }

  /** The search for the leftmost match at or after position i: the match
      is returned as the half-open span [start, end). */
  function MatchFrom(s: string, i: nat): (r: Option<(nat, nat)>)
    requires i <= |s|
    ensures r.Some? ==> i <= r.value.0 && r.value.0 + 2 <= r.value.1 <= |s|
    ensures r.Some? ==> s[r.value.0] == '{' && s[r.value.1 - 1] == '}'
    decreases |s| - i
  {
    if i == |s| then None
    else if s[i] == '{' then
      match LastCloseIn(s, i + 1, |s|)
      case Some(k) => Some((i, k + 1))
      case None => MatchFrom(s, i + 1)
    else MatchFrom(s, i + 1)
  }

  /** The span that app.js:114 extracts, or None when `match` gives null. */
  function FindSpan(s: string): (r: Option<(nat, nat)>)
    ensures r.Some? ==> r.value.0 + 2 <= r.value.1 <= |s|
    ensures r.Some? ==> s[r.value.0] == '{' && s[r.value.1 - 1] == '}'
  {
    MatchFrom(s, 0)
  }

  /** The text of the extracted span (`jsonMatch[0]`). */
  function SpanText(s: string, span: (nat, nat)): string
    requires span.0 <= span.1 <= |s|
  {
    s[span.0..span.1]
  }

  // ---- The regular expression's own semantics, as a reference ----

  /** s[b..e] is matched by /\{[\s\S]*\}/. */
  ghost predicate IsMatch(s: string, b: nat, e: nat) {
    b + 2 <= e <= |s| && s[b] == '{' && s[e - 1] == '}'
  }

  /** The match a non-global `String.prototype.match` returns: leftmost
      start, then longest. */
  ghost predicate LeftmostGreedy(s: string, b: nat, e: nat) {
    && IsMatch(s, b, e)
    && (forall b2: nat, e2: nat :: b2 < b ==> !IsMatch(s, b2, e2))
    && (forall e2: nat :: e < e2 ==> !IsMatch(s, b, e2))
  }

  // ---- The explicit rule: first `{`, last `}` after it ----

  ghost predicate FirstOpen(s: string, b: nat) {
    b < |s| && s[b] == '{' && forall k :: 0 <= k < b ==> s[k] != '{'
  }

  ghost predicate LastClose(s: string, c: nat) {
    c < |s| && s[c] == '}' && forall k :: c < k < |s| ==> s[k] != '}'
  }

  /** Some `}` occurs strictly after the first `{`. */
  ghost predicate ClosesAfterFirstOpen(s: string) {
    exists b: nat :: FirstOpen(s, b) && exists j :: b < j < |s| && s[j] == '}'
  }

  /** [b, e) runs from the first `{` to the last `}`, which comes after it. */
  ghost predicate RuleSpan(s: string, b: nat, e: nat) {
    b + 2 <= e <= |s| && FirstOpen(s, b) && LastClose(s, e - 1)
  }

  /** What the search from i finds: a match exactly when some `{` at or
      after i has a `}` after it, and then it starts at the first `{` from i
      and ends after the last `}` of the whole text. */
  lemma {:induction false} MatchFromCharacterized(s: string, i: nat)
    requires i <= |s|
    ensures MatchFrom(s, i).Some? <==>
              exists b, j :: i <= b < j < |s| && s[b] == '{' && s[j] == '}'
    ensures MatchFrom(s, i).Some? ==>
              (forall k :: i <= k < MatchFrom(s, i).value.0 ==> s[k] != '{') &&
              LastClose(s, MatchFrom(s, i).value.1 - 1)
    decreases |s| - i
  {
    if i < |s| {
      MatchFromCharacterized(s, i + 1);
      if s[i] == '{' {
        var c := LastCloseIn(s, i + 1, |s|);
        if c.Some? {
          assert s[i] == '{' && s[c.value] == '}';
        } else {
          // no `}` after this `{`, so none after any later `{` either
          assert !exists b, j :: i <= b < j < |s| && s[b] == '{' && s[j] == '}';
        }
      }
    }
  }

  /** The result is Some exactly when a `}` occurs after the first `{`. */
  lemma FindSpanSomeIff(s: string)
    ensures FindSpan(s).Some? <==> ClosesAfterFirstOpen(s)
  {
    MatchFromCharacterized(s, 0);
    if ClosesAfterFirstOpen(s) {
      var b: nat :| FirstOpen(s, b) && exists j :: b < j < |s| && s[j] == '}';
      var j :| b < j < |s| && s[j] == '}';
      assert s[b] == '{' && s[j] == '}';
    }
    if FindSpan(s).Some? {
      var b := FindSpan(s).value.0;
      assert FirstOpen(s, b);
      assert s[FindSpan(s).value.1 - 1] == '}';
    }
  }

  /** The extracted span is exactly the one given by the explicit rule. */
  lemma FindSpanIsRule(s: string, b: nat, e: nat)
    ensures FindSpan(s) == Some((b, e)) <==> RuleSpan(s, b, e)
  {
    MatchFromCharacterized(s, 0);
    if RuleSpan(s, b, e) {
      FindSpanSomeIff(s);
      assert s[b] == '{' && s[e - 1] == '}';
      var (b2, e2) := FindSpan(s).value;
      assert FirstOpen(s, b2);
      assert s[b2] == '{' && s[e2 - 1] == '}';
      assert b2 == b;
      assert e2 == e;
    }
  }

  /** The extracted span is the match JavaScript's regex engine returns, and
      none is extracted exactly when the text holds no match at all. */
  lemma FindSpanIsLeftmostGreedy(s: string, b: nat, e: nat)
    ensures FindSpan(s) == Some((b, e)) <==> LeftmostGreedy(s, b, e)
    ensures FindSpan(s).None? <==> forall b2: nat, e2: nat :: !IsMatch(s, b2, e2)
  {
    FindSpanIsRule(s, b, e);
    FindSpanSomeIff(s);
    if LeftmostGreedy(s, b, e) {
      assert FirstOpen(s, b) by {
        forall k | 0 <= k < b ensures s[k] != '{' {
          assert !IsMatch(s, k, e);
        }
      }
      assert LastClose(s, e - 1) by {
        forall k | e - 1 < k < |s| ensures s[k] != '}' {
          assert !IsMatch(s, b, k + 1);
        }
      }
    }
    if FindSpan(s) == Some((b, e)) {
      forall b2: nat, e2: nat | b2 < b ensures !IsMatch(s, b2, e2) {
        assert b2 < |s| ==> s[b2] != '{';
      }
      forall e2: nat | e < e2 ensures !IsMatch(s, b, e2) {
        assert e2 <= |s| ==> s[e2 - 1] != '}';
      }
    }
    if FindSpan(s).None? {
      MatchFromCharacterized(s, 0);
      forall b2: nat, e2: nat ensures !IsMatch(s, b2, e2) {
        assert b2 < e2 - 1 < |s| ==> s[b2] != '{' || s[e2 - 1] != '}';
      }
    } else {
      var (b1, e1) := FindSpan(s).value;
      assert IsMatch(s, b1, e1);
    }
  }

  /** The span is a substring of the input that starts with `{` and ends
      with `}`. */
  lemma SpanTextShape(s: string, b: nat, e: nat)
    requires FindSpan(s) == Some((b, e))
    ensures |SpanText(s, (b, e))| >= 2
    ensures SpanText(s, (b, e))[0] == '{' && SpanText(s, (b, e))[e - b - 1] == '}'
    ensures s == s[..b] + SpanText(s, (b, e)) + s[e..]
  {
    assert s == s[..b] + s[b..e] + s[e..];
  }

  /** A JSON object written between prose that has no `{` before it and no
      `}` after it is extracted exactly. */
  lemma SpanOfPadded(pre: string, body: string, post: string)
    requires '{' !in pre && '}' !in post
    requires |body| >= 2 && body[0] == '{' && body[|body| - 1] == '}'
    ensures FindSpan(pre + body + post) == Some((|pre|, |pre| + |body|))
    ensures SpanText(pre + body + post, (|pre|, |pre| + |body|)) == body
  {
    var s := pre + body + post;
    assert s[|pre|..|pre| + |body|] == body;
    assert FirstOpen(s, |pre|) by {
      forall k | 0 <= k < |pre| ensures s[k] != '{' {
        assert s[k] == pre[k];
      }
    }
    assert LastClose(s, |pre| + |body| - 1) by {
      forall k | |pre| + |body| - 1 < k < |s| ensures s[k] != '}' {
        assert s[k] == post[k - |pre| - |body|];
      }
    }
    FindSpanIsRule(s, |pre|, |pre| + |body|);
  }
}
