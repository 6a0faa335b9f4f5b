/**
 * The parts of java.util that DataTable leans on: the exceptions that
 * List.get and List.subList throw, and the hashCode contracts of
 * java.lang.String and java.util.List.
 */
module JavaLists {

  /** The unchecked exceptions an index or a sub-list range can raise. */
  datatype JavaException =
    | IndexOutOfBounds(index: int)
    | IllegalArgument(fromIndex: int, toIndex: int)

  /** What a Java call does: it returns a value or it throws. */
  datatype Outcome<+T> = Returned(value: T) | Thrown(exception: JavaException)

  /**
   * The hash polynomial shared by String.hashCode and List.hashCode:
   * starting from `seed`, each element code `c` updates the running hash
   * `h` to `31 * h + c`.
   */
  function Hash31(seed: int, codes: seq<int>): int
  {
    if codes == [] then seed
    else 31 * Hash31(seed, codes[..|codes| - 1]) + codes[|codes| - 1]
  }

  /**
   * The UTF-16 code units of `s`, the sequence a Java String holds: a
   * character of the Basic Multilingual Plane is one unit, any other
   * character a high surrogate followed by a low surrogate.
   */
  function Utf16Units(s: string): (units: seq<int>)
    ensures |s| <= |units| <= 2 * |s|
    ensures forall k :: 0 <= k < |units| ==> 0 <= units[k] < 0x1_0000
  {
    if s == [] then []
    else
      var c := s[0] as int;
      (if c < 0x1_0000 then [c]
       else [0xD800 + (c - 0x1_0000) / 0x400, 0xDC00 + (c - 0x1_0000) % 0x400])
      + Utf16Units(s[1..])
  }

  /** String.hashCode: the polynomial over the UTF-16 code units, from 0. */
  function StringHash(s: string): int
  {
    Hash31(0, Utf16Units(s))
  }

  /** List<String>.hashCode: the polynomial over the element hashes, from 1. */
  function RowHash(row: seq<string>): int
  {
    Hash31(1, seq(|row|, i requires 0 <= i < |row| => StringHash(row[i])))
  }

  /** List<List<String>>.hashCode: the polynomial over the row hashes, from 1. */
  function GridHash(grid: seq<seq<string>>): int
  {
    Hash31(1, seq(|grid|, i requires 0 <= i < |grid| => RowHash(grid[i])))
  }

  /** The grid hash unfolds one row at a time, as List.hashCode is specified. */
  lemma GridHashStep(grid: seq<seq<string>>)
    requires grid != []
    ensures GridHash(grid) == 31 * GridHash(grid[..|grid| - 1]) + RowHash(grid[|grid| - 1])
  {
    var n := |grid| - 1;
    var hashes := seq(|grid|, i requires 0 <= i < |grid| => RowHash(grid[i]));
    assert hashes[..n] == seq(n, i requires 0 <= i < n => RowHash(grid[..n][i]));
  }

  /** A character of the Basic Multilingual Plane is one code unit, its own code. */
  lemma BmpCharHash(c: char)
    requires c as int < 0x1_0000
    ensures Utf16Units([c]) == [c as int]
    ensures StringHash([c]) == c as int
  {
    var s: string := [c];
    assert s[1..] == [];
    var u := Utf16Units(s);
    assert u[..0] == [];
    assert Hash31(0, u) == 31 * Hash31(0, u[..0]) + u[0];
  }

  /**
   * A character outside the Basic Multilingual Plane is a surrogate pair:
   * a high surrogate, then a low surrogate, which decode back to the
   * character (U+1F600 is D83D DE00), and the string hash runs over both.
   */
  lemma SupplementaryCharHash(c: char)
    requires c as int >= 0x1_0000
    ensures |Utf16Units([c])| == 2
    ensures 0xD800 <= Utf16Units([c])[0] < 0xDC00
    ensures 0xDC00 <= Utf16Units([c])[1] < 0xE000
    ensures 0x1_0000 + (Utf16Units([c])[0] - 0xD800) * 0x400 + (Utf16Units([c])[1] - 0xDC00) == c as int
    ensures StringHash([c]) == 31 * Utf16Units([c])[0] + Utf16Units([c])[1]
  {
    var s: string := [c];
    assert s[1..] == [];
    var u := Utf16Units(s);
    assert u[..1][..0] == [];
    assert Hash31(0, u[..1]) == u[0];
  }
}
