/** The console commands of the main loop (`run`): how one input line is
    normalised and which action it selects. The loop itself, which carries
    the actions out, is `Vault.GraphVault.Run`. */
module Commands {
  import opened Base

  /** The characters `str.strip()` removes: Python's whitespace, that is
      the ASCII controls 9-13 and 28-31, the space, and the Unicode
      separators and spaces U+0085, U+00A0, U+1680, U+2000-U+200A, U+2028,
      U+2029, U+202F, U+205F and U+3000. */
  predicate IsSpace(c: char) {
    var n := c as int;
    || 9 <= n <= 13 || 28 <= n <= 32
    || n == 0x85 || n == 0xA0 || n == 0x1680
    || 0x2000 <= n <= 0x200A || n == 0x2028 || n == 0x2029
    || n == 0x202F || n == 0x205F || n == 0x3000
  }

  function TrimStart(s: string): string {
    if s != [] && IsSpace(s[0]) then TrimStart(s[1..]) else s
  }

  function TrimEnd(s: string): string {
    if s != [] && IsSpace(s[|s| - 1]) then TrimEnd(s[..|s| - 1]) else s
  }

  /** `line.strip().lower()`. */
  function Normalize(line: string): string {
    Lower(TrimEnd(TrimStart(line)))
  }

  /** The string the digit test looks in. */
  const Digits: string := "123456789"

  /** Python's `s in t` on strings: `s` occurs in `t` at some position. */
  predicate Occurs(s: string, t: string) {
    if |s| <= |t| && t[..|s|] == s then true
    else if t == [] then false
    else Occurs(s, t[1..])
  }

  predicate IsDigit(c: char) {
    '0' <= c <= '9'
  }

  /** `int(s)` of a string of decimal digits. */
  function DecimalValue(s: string): int
    requires forall i :: 0 <= i < |s| ==> IsDigit(s[i])
  {
    if s == [] then 0 else 10 * DecimalValue(s[..|s| - 1]) + (s[|s| - 1] as int - '0' as int)
  }

  /** The action one input line selects. */
  datatype Command =
    | ProcessBatch       // empty line
    | SetBatch(idx: int) // a batch-size index
    | Rescan             // "r"
    | SyncOnly           // "s"
    | Quit               // "q"
    | Ignored            // anything else

  /** The branches of `run`, in their order: the empty line runs a batch;
      a string found inside "123456789" selects index `int(cmd) - 1` when
      that index is valid and does nothing otherwise; then "r", "s", "q". */
  function Parse(line: string): Command {
    var cmd := Normalize(line);
    if cmd == "" then ProcessBatch
    else if Occurs(cmd, Digits) then
      OccursInDigits(cmd, Digits);
      var idx := DecimalValue(cmd) - 1;
      if 0 <= idx < 10 then SetBatch(idx) else Ignored
    else if cmd == "r" then Rescan
    else if cmd == "s" then SyncOnly
    else if cmd == "q" then Quit
    else Ignored
  }

  /** A string that occurs in a string of digits is made of digits. */
  lemma {:induction false} OccursInDigits(s: string, t: string)
    requires Occurs(s, t) && forall i :: 0 <= i < |t| ==> '1' <= t[i] <= '9'
    ensures forall i :: 0 <= i < |s| ==> '1' <= s[i] <= '9'
  {
    if |s| <= |t| && t[..|s|] == s {
      forall i | 0 <= i < |s| ensures '1' <= s[i] <= '9' {
        assert s[i] == t[i];
      }
    } else {
      OccursInDigits(s, t[1..]);
    }
  }

  /** A non-empty string of non-zero digits is worth at least 1, and at
      least 11 when it has two digits or more. */
  lemma {:induction false} DecimalValueBounds(s: string)
    requires s != [] && forall i :: 0 <= i < |s| ==> '1' <= s[i] <= '9'
    ensures DecimalValue(s) >= 1
    ensures |s| >= 2 ==> DecimalValue(s) >= 11
  {
    if |s| >= 2 {
      DecimalValueBounds(s[..|s| - 1]);
    }
  }

  /** Every single digit 1-9 occurs in the digit string. */
  lemma SingleDigitOccurs(d: char)
    requires '1' <= d <= '9'
    ensures Occurs([d], Digits)
  {
    var i := d as int - '1' as int;
    var t := Digits;
    assert t[i] == d;
    if i > 0 { assert Occurs([d], t[1..]) by { SingleDigitAt(d, t[1..], i - 1); } }
  }

  lemma {:induction false} SingleDigitAt(d: char, t: string, i: int)
    requires 0 <= i < |t| && t[i] == d
    ensures Occurs([d], t)
  {
    if i > 0 && t[..1] != [d] {
      SingleDigitAt(d, t[1..], i - 1);
    }
  }

  /** A batch-size change is selected exactly by a single digit `d` from 1
      to 9, which selects index `d - 1`: several digits such as "12" pass
      the substring test but give an index past the end, and the tenth
      size can never be selected. */
  lemma SetBatchIff(line: string)
    ensures Parse(line).SetBatch? <==>
      |Normalize(line)| == 1 && '1' <= Normalize(line)[0] <= '9'
    ensures Parse(line).SetBatch? ==>
      Parse(line).idx == Normalize(line)[0] as int - '1' as int && 0 <= Parse(line).idx <= 8
  {
    var cmd := Normalize(line);
    if |cmd| == 1 && '1' <= cmd[0] <= '9' {
      SingleDigitOccurs(cmd[0]);
      assert cmd == [cmd[0]];
      assert DecimalValue(cmd) == 10 * DecimalValue([]) + (cmd[0] as int - '0' as int) by {
        assert cmd[..0] == [];
      }
    }
    if cmd != "" && Occurs(cmd, Digits) {
      OccursInDigits(cmd, Digits);
      DecimalValueBounds(cmd);
    }
  }

  /** The letter commands ignore surrounding blanks and case. */
  lemma LetterCommands(line: string)
    ensures Normalize(line) == "r" <==> Parse(line) == Rescan
    ensures Normalize(line) == "s" <==> Parse(line) == SyncOnly
    ensures Normalize(line) == "q" <==> Parse(line) == Quit
    ensures Normalize(line) == "" <==> Parse(line) == ProcessBatch
  {
    var cmd := Normalize(line);
    if cmd == "r" || cmd == "s" || cmd == "q" {
      assert !Occurs(cmd, Digits) by { LetterNotInDigits(cmd, Digits); }
    }
  }

  lemma {:induction false} LetterNotInDigits(s: string, t: string)
    requires |s| == 1 && !IsDigit(s[0]) && forall i :: 0 <= i < |t| ==> IsDigit(t[i])
    ensures !Occurs(s, t)
  {
    if t != [] {
      assert t[..1] != s by { assert t[0] != s[0]; }
      LetterNotInDigits(s, t[1..]);
    }
  }

  /** Stripping the start removes exactly the leading blanks: what it
      drops is blanks, and what it keeps starts with a non-blank. */
  lemma {:induction false} TrimStartSpaceFree(s: string)
    ensures TrimStart(s) == [] || !IsSpace(TrimStart(s)[0])
    ensures |TrimStart(s)| <= |s| && TrimStart(s) == s[|s| - |TrimStart(s)|..]
    ensures forall i :: 0 <= i < |s| - |TrimStart(s)| ==> IsSpace(s[i])
  {
    if s != [] && IsSpace(s[0]) {
      TrimStartSpaceFree(s[1..]);
    }
  }

  /** Stripping the end removes exactly the trailing blanks. */
  lemma {:induction false} TrimEndSpaceFree(s: string)
    ensures TrimEnd(s) == [] || !IsSpace(TrimEnd(s)[|TrimEnd(s)| - 1])
    ensures |TrimEnd(s)| <= |s| && TrimEnd(s) == s[..|TrimEnd(s)|]
    ensures forall i :: |TrimEnd(s)| <= i < |s| ==> IsSpace(s[i])
  {
    if s != [] && IsSpace(s[|s| - 1]) {
      TrimEndSpaceFree(s[..|s| - 1]);
    }
  }

  /** A line wrapped in a file separator (U+001C) and an ideographic space
      still quits, as `strip()` removes both. */
  lemma StripsAllBlanks()
    ensures Parse([28 as char, 'q', 0x3000 as char]) == Quit
  {
    var line := [28 as char, 'q', 0x3000 as char];
    assert TrimStart(line) == line[1..];
    assert TrimEnd(line[1..]) == "q" by { assert line[1..][..1] == "q"; }
    LetterCommands(line);
  }

  /** Normalising a line a second time changes nothing. */
  lemma NormalizeIdempotent(line: string)
    ensures Normalize(Normalize(line)) == Normalize(line)
  {
    var a := TrimStart(line);
    var u := TrimEnd(a);
    TrimStartSpaceFree(line);
    TrimEndSpaceFree(a);
    var l := Lower(u);
    if u != [] {
      assert u[0] == a[0];
      assert !IsSpace(l[0]) && !IsSpace(l[|l| - 1]);
    }
    assert TrimStart(l) == l;
    assert TrimEnd(l) == l;
    assert Lower(l) == l;
  }
}
