/**
 * Standard input as the list of characters still to be read, and
 * `fgets(buf, size, stdin)` as a function that splits off what one call reads.
 */
module Stdio {

  /** How many characters one `fgets` with room for `limit` characters takes. */
  function LineLength(stream: string, limit: nat): (n: nat)
    ensures n <= limit && n <= |stream|
    ensures forall i :: 0 <= i < n && i + 1 < n ==> stream[i] != '\n'
    ensures n == limit || n == |stream| || (n >= 1 && stream[n - 1] == '\n')
  {
    if limit == 0 || stream == [] then 0
    else if stream[0] == '\n' then 1
    else 1 + LineLength(stream[1..], limit - 1)
  }

  /**
   * `fgets(buf, size, stdin)`: at most `size - 1` characters, stopping after
   * the first newline, which is kept. The second component is what is left.
   * At end of input the C buffer keeps whatever it held; this model reads "".
   */
  function Fgets(stream: string, size: nat): (r: (string, string))
    requires size >= 1
    ensures r.0 + r.1 == stream
    ensures |r.0| <= size - 1
    ensures |r.0| == size - 1 || r.1 == [] || (|r.0| >= 1 && r.0[|r.0| - 1] == '\n')
  {
    var n := LineLength(stream, size - 1);
    assert stream[..n] + stream[n..] == stream;
    (stream[..n], stream[n..])
  }

  /** Room for a whole line: `fgets` reads it with its newline and leaves the rest. */
  lemma {:induction false} FgetsLine(line: string, rest: string, size: nat)
    requires |line| + 1 <= size - 1
    requires forall i :: 0 <= i < |line| ==> line[i] != '\n'
    ensures Fgets(line + "\n" + rest, size) == (line + "\n", rest)
  {
    LineLengthOf(line, rest, size - 1);
    var s := line + "\n" + rest;
    assert s[..|line| + 1] == line + "\n";
    assert s[|line| + 1..] == rest;
  }

  lemma {:induction false} LineLengthOf(line: string, rest: string, limit: nat)
    requires |line| + 1 <= limit
    requires forall i :: 0 <= i < |line| ==> line[i] != '\n'
    ensures LineLength(line + "\n" + rest, limit) == |line| + 1
  {
    var s := line + "\n" + rest;
    if line == [] {
      assert s[0] == '\n';
    } else {
      assert s[1..] == line[1..] + "\n" + rest;
      LineLengthOf(line[1..], rest, limit - 1);
    }
  }
}
