/** Clean-up of the generated text before parsing (services/geminiService.ts:120): the
    global regular-expression replace of /```json\n?|\n?```/g by the empty string, then
    `trim()`. The replace is modelled as the left-to-right scan the regular-expression
    engine performs: at each position the alternatives are tried in priority order and a
    match is dropped, otherwise one character is kept. */
module Fence {
  import opened Text

  /** The four strings the pattern can match, in the order the engine tries them. */
  const FenceJsonNewline: string := "```json\n"
  const FenceJson: string := "```json"
  const NewlineFence: string := "\n```"
  const Fence: string := "```"

  /** The length of the pattern match at the start of `t`, 0 when there is none.
      Backticks decide between the first, second and fourth alternatives; a newline
      can only begin the third. */
  function MatchLength(t: string): (n: nat)
    ensures n in {0, 3, 4, 7, 8}
    ensures n <= |t|
  {
    if |t| >= 3 && t[0] == '`' && t[1] == '`' && t[2] == '`' then
      if |t| >= 7 && t[3] == 'j' && t[4] == 's' && t[5] == 'o' && t[6] == 'n' then
        if |t| >= 8 && t[7] == '\n' then 8 else 7
      else 3
    else if |t| >= 4 && t[0] == '\n' && t[1] == '`' && t[2] == '`' && t[3] == '`' then 4
    else 0
  }

  /** The match found is the first alternative, in priority order, that `t` begins with. */
  lemma MatchLengthIsPriorityOrder(t: string)
    ensures MatchLength(t) == (
      if IsPrefix(FenceJsonNewline, t) then |FenceJsonNewline|
      else if IsPrefix(FenceJson, t) then |FenceJson|
      else if IsPrefix(NewlineFence, t) then |NewlineFence|
      else if IsPrefix(Fence, t) then |Fence|
      else 0)
  {
  }

  /** Removes every fence match, scanning from the left. */
  function Strip(t: string): (r: string)
    ensures |r| <= |t|
    decreases |t|
  {
    if t == [] then []
    else if MatchLength(t) > 0 then Strip(t[MatchLength(t)..])
    else [t[0]] + Strip(t[1..])
  }

  /** The text handed to `JSON.parse`. */
  function Clean(t: string): (r: string)
    ensures NoEdgeWhitespace(r)
    ensures |r| <= |t|
  {
    Trim(Strip(t))
  }

  /** No match of the pattern can begin inside `a`: it holds no backtick and does not end
      in a newline that could start "\n```". */
  predicate Plain(a: string) {
    && (forall k :: 0 <= k < |a| ==> a[k] != '`')
    && (a == [] || a[|a| - 1] != '\n')
  }

  /** No match begins at the start of text that opens with a non-empty plain string. */
  lemma NoMatchAfterPlain(a: string, t: string)
    requires Plain(a)
    requires a != []
    ensures MatchLength(a + t) == 0
  {
    var u := a + t;
    assert u[0] == a[0];
    if |a| >= 2 { assert u[1] == a[1]; }
  }

  /** A plain string stays plain without its first character. */
  lemma PlainTail(a: string)
    requires Plain(a)
    requires a != []
    ensures Plain(a[1..])
  {
    forall k | 0 <= k < |a| - 1 ensures a[1..][k] != '`' { assert a[1..][k] == a[k + 1]; }
  }

  lemma ConsAppend(a: string, x: string)
    requires a != []
    ensures [a[0]] + (a[1..] + x) == a + x
  {
    assert [a[0]] + a[1..] == a;
  }

  /** A plain prefix is kept verbatim and scanning resumes right after it. */
  lemma {:induction false} StripPlainPrefix(a: string, t: string)
    requires Plain(a)
    ensures Strip(a + t) == a + Strip(t)
  {
    if a != [] {
      var u := a + t;
      NoMatchAfterPlain(a, t);
      assert u[1..] == a[1..] + t;
      PlainTail(a);
      StripPlainPrefix(a[1..], t);
      calc {
        Strip(u);
        [u[0]] + Strip(u[1..]);
        [a[0]] + (a[1..] + Strip(t));
        { ConsAppend(a, Strip(t)); }
        a + Strip(t);
      }
    } else {
      assert a + t == t;
    }
  }

  /** Text without "```" has no three backticks in a row. */
  lemma NoBackticksAt(t: string, i: nat)
    requires !Contains(t, Fence)
    requires i + 3 <= |t|
    ensures !(t[i] == '`' && t[i + 1] == '`' && t[i + 2] == '`')
  {
    assert !OccursAt(t, Fence, i);
    assert t[i..i + 3] == [t[i], t[i + 1], t[i + 2]];
  }

  /** Every alternative holds "```" at offset 0 or 1, so text without "```" has no match
      at its start. */
  lemma NoMatchWithoutFence(t: string)
    requires !Contains(t, Fence)
    ensures MatchLength(t) == 0
  {
    if |t| >= 3 { NoBackticksAt(t, 0); }
    if |t| >= 4 { NoBackticksAt(t, 1); }
  }

  /** Text without "```" passes the scan unchanged. */
  lemma {:induction false} StripNoFence(t: string)
    requires !Contains(t, Fence)
    ensures Strip(t) == t
  {
    if t != [] {
      NoMatchWithoutFence(t);
      NotContainsTail(t, Fence);
      StripNoFence(t[1..]);
    }
  }

  /** Cleaning text without "```" only trims it. */
  lemma CleanWithoutFence(t: string)
    requires !Contains(t, Fence)
    ensures Clean(t) == Trim(t)
    ensures NoEdgeWhitespace(t) ==> Clean(t) == t
  {
    StripNoFence(t);
    if NoEdgeWhitespace(t) {
      TrimIdentity(t);
    }
  }

  /** A closing "\n```" after fence-free text is dropped and nothing else changes. */
  lemma {:induction false} StripBeforeClosingFence(s: string)
    requires !Contains(s, Fence)
    requires s == [] || s[|s| - 1] != '\n'
    ensures Strip(s + NewlineFence) == s
  {
    var u := s + NewlineFence;
    if s == [] {
      assert u == NewlineFence;
      assert MatchLength(u) == 4;
      assert u[4..] == [];
    } else {
      assert u[|s|] == '\n';
      assert forall k :: 0 <= k < |s| ==> u[k] == s[k];
      if |s| >= 3 { NoBackticksAt(s, 0); }
      if |s| >= 4 { NoBackticksAt(s, 1); }
      assert MatchLength(u) == 0;
      assert u[1..] == s[1..] + NewlineFence;
      NotContainsTail(s, Fence);
      StripBeforeClosingFence(s[1..]);
    }
  }

  /** Round trip: a payload without "```" and without edge whitespace, wrapped in an
      opening "```json\n" and a closing "\n```", is recovered exactly. */
  lemma WrappedRoundTrip(s: string)
    requires !Contains(s, Fence)
    requires NoEdgeWhitespace(s)
    ensures Clean(FenceJsonNewline + s + NewlineFence) == s
  {
    var u := FenceJsonNewline + s + NewlineFence;
    assert u[..8] == FenceJsonNewline;
    assert MatchLength(u) == 8;
    assert u[8..] == s + NewlineFence;
    StripBeforeClosingFence(s);
    TrimIdentity(s);
  }

  /** A bare "```" not followed by "json" is dropped. */
  lemma StripLeadingFence(b: string)
    requires !IsPrefix("json", b)
    ensures Strip(Fence + b) == Strip(b)
  {
    var u := Fence + b;
    assert !(|b| >= 4 && b[0] == 'j' && b[1] == 's' && b[2] == 'o' && b[3] == 'n') by {
      if |b| >= 4 { assert b[..4] == [b[0], b[1], b[2], b[3]]; }
    }
    assert |u| >= 7 ==> u[3] == b[0] && u[4] == b[1] && u[5] == b[2] && u[6] == b[3];
    assert MatchLength(u) == 3;
    assert u[3..] == b;
  }

  /** A bare "```" is removed wherever it stands, not only at the edges of the text. */
  lemma StripRemovesInnerFence(a: string, b: string)
    requires Plain(a)
    requires !Contains(b, Fence)
    requires !IsPrefix("json", b)
    ensures Strip(a + Fence + b) == a + b
  {
    assert a + Fence + b == a + (Fence + b);
    StripPlainPrefix(a, Fence + b);
    StripLeadingFence(b);
    StripNoFence(b);
  }

  /** A "```json" not followed by a newline is dropped. */
  lemma StripLeadingJsonFence(b: string)
    requires b == [] || b[0] != '\n'
    ensures Strip(FenceJson + b) == Strip(b)
  {
    var u := FenceJson + b;
    assert MatchLength(u) == 7 by {
      assert u[0] == '`' && u[1] == '`' && u[2] == '`';
      assert u[3] == 'j' && u[4] == 's' && u[5] == 'o' && u[6] == 'n';
      assert |u| >= 8 ==> u[7] == b[0];
    }
    assert u[7..] == b;
  }

  /** A "```json" inside the payload, such as one quoted in a JSON string value, is
      removed too, changing the value. */
  lemma StripRemovesInnerJsonFence(a: string, b: string)
    requires Plain(a)
    requires !Contains(b, Fence)
    requires b == [] || b[0] != '\n'
    requires NoEdgeWhitespace(a + b)
    ensures Clean(a + FenceJson + b) == a + b
  {
    assert a + FenceJson + b == a + (FenceJson + b);
    StripPlainPrefix(a, FenceJson + b);
    StripLeadingJsonFence(b);
    StripNoFence(b);
    TrimIdentity(a + b);
  }
}
