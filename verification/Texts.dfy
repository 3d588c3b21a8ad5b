/** Texts as sequences of bytes, and what stands where in them. */
module Texts {

  predicate CharAt(text: string, i: nat, c: char) {
    i < |text| && text[i] == c
  }

  /** s stands at i. */
  predicate Spans(text: string, i: nat, s: string) {
    i + |s| <= |text| && forall k :: 0 <= k < |s| ==> text[i + k] == s[k]
  }

  function LowerChar(c: char): char {
    if 'A' <= c <= 'Z' then c - 'A' + 'a' else c
  }

  function Lower(s: string): string {
    seq(|s|, i requires 0 <= i < |s| => LowerChar(s[i]))
  }

  lemma Split(text: string, i: nat, a: string, b: string)
    requires Spans(text, i, a + b)
    ensures Spans(text, i, a) && Spans(text, i + |a|, b)
  {
    forall k | 0 <= k < |a| ensures text[i + k] == a[k] { assert (a + b)[k] == a[k]; }
    forall k | 0 <= k < |b| ensures text[i + |a| + k] == b[k] { assert (a + b)[|a| + k] == b[k]; }
  }

  lemma Letter(text: string, i: nat, a: string, k: nat)
    requires Spans(text, i, a) && k < |a|
    ensures i + k < |text| && text[i + k] == a[k]
  {
  }
}
