/** Runs of consecutive characters, such as the letters from A to Z. */
module Ascii {

  /** The n characters from c on. */
  function Run(c: char, n: nat): (s: string)
    requires c as int + n <= 0xD800
    ensures |s| == n
  {
    seq(n, i requires 0 <= i < n => (c as int + i) as char)
  }

  lemma InRun(c: char, n: nat, d: char)
    requires c as int + n <= 0xD800
    ensures d in Run(c, n) <==> c as int <= d as int < c as int + n
  {
    if c as int <= d as int < c as int + n {
      assert Run(c, n)[d as int - c as int] == d;
    }
  }
}
