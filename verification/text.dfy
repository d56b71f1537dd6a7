/** String operations the screens use: `toLowerCase`, `includes`, and the
    keyword routers built from chains of `includes` tests. */
module Text {
  import opened Common

  /** `toLowerCase` on one character, for the ASCII letters. */
  function LowerChar(c: char): (r: char)
    ensures 'A' <= c <= 'Z' ==> 'a' <= r <= 'z'
    ensures !('A' <= c <= 'Z') ==> r == c
  {
    if 'A' <= c <= 'Z' then (c as int + 32) as char else c
  }

  /** `s.toLowerCase()`. */
  function Lower(s: string): (r: string)
    ensures |r| == |s|
    ensures forall i :: 0 <= i < |s| ==> r[i] == LowerChar(s[i])
  {
    if s == [] then [] else [LowerChar(s[0])] + Lower(s[1..])
  }

  /** No upper-case ASCII letter survives lower-casing. */
  predicate IsLower(s: string) {
    forall i :: 0 <= i < |s| ==> !('A' <= s[i] <= 'Z')
  }

  lemma LowerIsLower(s: string)
    ensures IsLower(Lower(s))
    ensures Lower(Lower(s)) == Lower(s)
  {
    var l := Lower(s);
    assert forall i :: 0 <= i < |l| ==> Lower(l)[i] == l[i];
  }

  /** Lower-casing leaves a string without capitals as it is. */
  lemma LowerOfLowercase(s: string)
    requires IsLower(s)
    ensures Lower(s) == s
  {
    assert forall i :: 0 <= i < |s| ==> Lower(s)[i] == s[i];
  }

  /** `s.includes(k)`: `k` occurs in `s` as a contiguous block. */
  predicate Contains(s: string, k: string)
    decreases |s|
  {
    k <= s || (s != [] && Contains(s[1..], k))
  }

  /** A copy of `k` starts at position `i` of `s`. */
  ghost predicate OccursAt(s: string, k: string, i: int) {
    0 <= i && i + |k| <= |s| && s[i..i + |k|] == k
  }

  /** Where `s.includes(k)` holds, some position of `s` starts a copy of `k`. */
  lemma {:induction false} OccurrenceOf(s: string, k: string) returns (i: nat)
    requires Contains(s, k)
    ensures OccursAt(s, k, i)
    decreases |s|
  {
    if k <= s {
      i := 0;
    } else {
      var j := OccurrenceOf(s[1..], k);
      assert s[j + 1..j + 1 + |k|] == s[1..][j..j + |k|];
      i := j + 1;
    }
  }

  /** A copy of `k` at position `i` makes `s.includes(k)` hold. */
  lemma {:induction false} ContainsAt(s: string, k: string, i: nat)
    requires OccursAt(s, k, i)
    ensures Contains(s, k)
    decreases i
  {
    if i > 0 {
      assert s[1..][i - 1..i - 1 + |k|] == s[i..i + |k|];
      ContainsAt(s[1..], k, i - 1);
    }
  }

  /** `Contains` agrees with the textbook definition of `includes`. */
  lemma ContainsIffOccurs(s: string, k: string)
    ensures Contains(s, k) <==> exists i :: OccursAt(s, k, i)
  {
    if Contains(s, k) {
      var i := OccurrenceOf(s, k);
    }
    if exists i :: OccursAt(s, k, i) {
      var i :| OccursAt(s, k, i);
      ContainsAt(s, k, i);
    }
  }

  /** A keyword whose first letter never occurs in `s` is not included in it. */
  lemma {:induction false} NotContainsWithoutFirst(s: string, k: string)
    requires k != [] && k[0] !in s
    ensures !Contains(s, k)
    decreases |s|
  {
    if s != [] {
      assert s[0] in s;
      assert forall c :: c in s[1..] ==> c in s;
      NotContainsWithoutFirst(s[1..], k);
    }
  }

  /** Every string includes the empty string. */
  lemma ContainsEmpty(s: string)
    ensures Contains(s, "")
  {
  }

  /** `text.toLowerCase().includes(query.toLowerCase())`. */
  predicate IncludesIgnoringCase(text: string, query: string) {
    Contains(Lower(text), Lower(query))
  }

  /** `keywords.some(k => cmd.includes(k))`. */
  predicate MentionsAny(cmd: string, keywords: seq<string>) {
    exists i :: 0 <= i < |keywords| && Contains(cmd, keywords[i])
  }

  /** A one-keyword branch tests `cmd.includes(k)`. */
  lemma MentionsOne(cmd: string, k: string)
    ensures MentionsAny(cmd, [k]) <==> Contains(cmd, k)
  {
    if Contains(cmd, k) {
      assert [k][0] == k;
    }
  }

  /** A two-keyword branch tests `cmd.includes(k1) || cmd.includes(k2)`. */
  lemma MentionsTwo(cmd: string, k1: string, k2: string)
    ensures MentionsAny(cmd, [k1, k2]) <==> Contains(cmd, k1) || Contains(cmd, k2)
  {
    if Contains(cmd, k1) {
      assert [k1, k2][0] == k1;
    }
    if Contains(cmd, k2) {
      assert [k1, k2][1] == k2;
    }
  }

  /** One branch of an `if (...) else if (...)` keyword chain: the branch is
      taken when the command mentions any of its keywords. */
  datatype Rule<A> = Rule(keywords: seq<string>, action: A)

  /** The position of the first rule whose keywords the command mentions,
      or `|rules|` when there is none. */
  function FirstMatchIndex<A>(rules: seq<Rule<A>>, cmd: string): (k: nat)
    ensures k <= |rules|
    ensures forall j :: 0 <= j < k ==> !MentionsAny(cmd, rules[j].keywords)
    ensures k < |rules| ==> MentionsAny(cmd, rules[k].keywords)
    decreases |rules|
  {
    if rules == [] then 0
    else if MentionsAny(cmd, rules[0].keywords) then 0
    else 1 + FirstMatchIndex(rules[1..], cmd)
  }

  /** The action of an `if`/`else if` chain of keyword tests: the first rule
      that matches wins, and no match selects nothing. */
  function FirstMatch<A>(rules: seq<Rule<A>>, cmd: string): (r: Option<A>)
    ensures r.None? <==> forall j :: 0 <= j < |rules| ==> !MentionsAny(cmd, rules[j].keywords)
  {
    var k := FirstMatchIndex(rules, cmd);
    if k < |rules| then Some(rules[k].action) else None
  }

  /** The first matching rule decides, whatever later rules also match. */
  lemma FirstMatchIsEarliest<A>(rules: seq<Rule<A>>, cmd: string, k: nat)
    requires k < |rules| && MentionsAny(cmd, rules[k].keywords)
    requires forall j :: 0 <= j < k ==> !MentionsAny(cmd, rules[j].keywords)
    ensures FirstMatch(rules, cmd) == Some(rules[k].action)
  {
  }
}
