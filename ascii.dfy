/**
 * The ASCII case mapping of PHP's `strtoupper`, and the case folding PHP
 * applies when it looks up a method name.
 */
module Ascii {

  /** `strtoupper` on one character: only lower-case ASCII letters change, and the result folds like the input. */
  function Upper(c: char): (u: char)
    ensures !('a' <= u <= 'z')
    ensures u != c ==> 'a' <= c <= 'z'
    ensures Lower(u) == Lower(c)
  {
    if 'a' <= c <= 'z' then (c as int - 32) as char else c
  }

  function Lower(c: char): char
  {
    if 'A' <= c <= 'Z' then (c as int + 32) as char else c
  }

  /** The lower-cased form of a name: two method names denote the same method iff they fold equally. */
  function FoldCase(s: string): (r: string)
    ensures |r| == |s|
    ensures forall i :: 0 <= i < |s| ==> r[i] == Lower(s[i])
  {
    if s == [] then [] else [Lower(s[0])] + FoldCase(s[1..])
  }

  lemma FoldCaseAppend(a: string, b: string)
    ensures FoldCase(a + b) == FoldCase(a) + FoldCase(b)
  {
    assert forall i :: 0 <= i < |a + b| ==> FoldCase(a + b)[i] == (FoldCase(a) + FoldCase(b))[i];
  }
}
