/** Shared vocabulary: optional values and the whitespace classes of the two host languages. */
module Prelude {

  datatype Option<+T> = None | Some(value: T) {

    /** Returns the value encapsulated in Some or a default value if None. */
    function GetOr(default: T): T {
      match this
      case Some(v) => v
      case None => default
    }
  }

  /** Characters that Python's `str.split()` and `str.strip()` treat as whitespace. */
  predicate PythonSpace(c: char) {
    var n := c as int;
    || 0x09 <= n <= 0x0D || 0x1C <= n <= 0x20 || n == 0x85 || n == 0xA0 || n == 0x1680
    || 0x2000 <= n <= 0x200A || n == 0x2028 || n == 0x2029 || n == 0x202F || n == 0x205F || n == 0x3000
  }

  /** Characters that JavaScript's `\s` and `String.trim()` treat as whitespace. */
  predicate ScriptSpace(c: char) {
    var n := c as int;
    || 0x09 <= n <= 0x0D || n == 0x20 || n == 0xA0 || n == 0x1680
    || 0x2000 <= n <= 0x200A || n == 0x2028 || n == 0x2029 || n == 0x202F || n == 0x205F || n == 0x3000 || n == 0xFEFF
  }

  /** The two classes agree on all but six characters: only Python strips the four separators below the
      space and the next-line character, only JavaScript the byte-order mark. */
  lemma SpaceClassesDiffer(c: char)
    ensures PythonSpace(c) && !ScriptSpace(c) <==> c as int in {0x1C, 0x1D, 0x1E, 0x1F, 0x85}
    ensures ScriptSpace(c) && !PythonSpace(c) <==> c as int == 0xFEFF
    ensures c in [' ', '\t', '\n', '\r'] ==> PythonSpace(c) && ScriptSpace(c)
  {
  }
}
