/** Small pieces that several modules share. */
module Basics {
  datatype Option<+T> = None | Some(value: T)

  function AtLeastZero(n: int): nat {
    if n < 0 then 0 else n
  }

  function SetOf<T>(s: seq<T>): set<T> {
    set x | x in s
  }

  function LowerChar(c: char): char {
    if 'A' <= c <= 'Z' then ((c as int) + 32) as char else c
  }

  /** str.lower() on ASCII. */
  function Lower(s: string): string {
    if s == [] then [] else [LowerChar(s[0])] + Lower(s[1..])
  }

  /** Character by character, and only capital letters change. */
  lemma {:induction false} LowerExactly(s: string)
    ensures |Lower(s)| == |s|
    ensures forall i :: 0 <= i < |s| ==>
      if 'A' <= s[i] <= 'Z' then Lower(s)[i] as int == s[i] as int + 32 else Lower(s)[i] == s[i]
  {
    if s != [] { LowerExactly(s[1..]); }
  }
}
