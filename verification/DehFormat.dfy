/** The format string check of src/deh_str.c: a replacement may be used as a printf format only if it
    reads no argument that the original format did not pass. */
module DehFormat {
  import opened DehTable

  datatype FormatArg = INVALID | INT | FLOAT | CHAR | STRING | PTR | SAVE_POS

  datatype Rover = NULL | At(pos: nat)

  function FormatArgumentType(c: char): FormatArg {
    if c in "diouxX" then INT
    else if c in "eEfFgGaA" then FLOAT
    else if c in "cC" then CHAR
    else if c in "sS" then STRING
    else if c == 'p' then PTR
    else if c == 'n' then SAVE_POS
    else INVALID
  }

  // ---------- What a format string reads ----------

  /** The argument types read from position i on, outside a conversion. A doubled percent sign reads nothing. */
  function ArgsFrom(s: string, i: nat): seq<FormatArg>
    requires i <= |s|
    decreases |s| - i, 1
  {
    if i == |s| then []
    else if s[i] != '%' then ArgsFrom(s, i + 1)
    else if i + 1 < |s| && s[i + 1] == '%' then ArgsFrom(s, i + 2)
    else ArgsInSpec(s, i + 1)
  }

  /** The same inside a conversion: flags, width and precision go up to the first type character. */
  function ArgsInSpec(s: string, i: nat): seq<FormatArg>
    requires i <= |s|
    decreases |s| - i, 0
  {
    if i == |s| then []
    else if FormatArgumentType(s[i]).INVALID? then ArgsInSpec(s, i + 1)
    else [FormatArgumentType(s[i])] + ArgsFrom(s, i + 1)
  }

  function Args(s: string): seq<FormatArg> { ArgsFrom(s, 0) }

  predicate ValidArgumentReplacement(original: FormatArg, replacement: FormatArg) {
    (original.CHAR? && replacement.INT?) || (original.STRING? && replacement.PTR?) || original == replacement
  }

  /** The replacement reads a pointwise compatible prefix of what the original reads. */
  ghost predicate Compatible(original: seq<FormatArg>, replacement: seq<FormatArg>) {
    && |replacement| <= |original|
    && forall i | 0 <= i < |replacement| :: ValidArgumentReplacement(original[i], replacement[i])
  }

  /** The type of the next argument at the rover, which moves behind it; NULL at the end. */
  method NextFormatArgument(s: string, rover: nat) returns (argtype: FormatArg, rover': Rover)
    requires rover <= |s|
    ensures var args := ArgsFrom(s, rover);
            if args == [] then argtype == INVALID && rover' == NULL
            else argtype == args[0] && rover'.At? && rover'.pos <= |s| && ArgsFrom(s, rover'.pos) == args[1..]
    ensures rover'.At? ==> rover'.pos > rover && !argtype.INVALID?
  {
    var r := rover;
    ghost var args := ArgsFrom(s, rover);
    while r < |s|
      invariant rover <= r <= |s|
      invariant args == ArgsFrom(s, r)
    {
      if s[r] == '%' {
        r := r + 1;
        if r == |s| || s[r] != '%' {
          break;
        }
      }
      r := r + 1;
    }
    while r < |s|
      invariant rover <= r <= |s|
      invariant args == ArgsInSpec(s, r)
    {
      argtype := FormatArgumentType(s[r]);
      if argtype != INVALID {
        return argtype, At(r + 1);
      }
      r := r + 1;
    }
    return INVALID, NULL;
  }

  /** The rover of a string that has run out is never scanned: one of the two tests ends the loop first. */
  method ValidFormatReplacement(original: string, replacement: string) returns (valid: bool)
    ensures valid <==> Compatible(Args(original), Args(replacement))
  {
    var rover1, rover2 := At(0), At(0);
    ghost var n: nat := 0;
    ghost var args1, args2 := Args(original), Args(replacement);
    while true
      invariant rover1.At? && rover1.pos <= |original| && rover2.At? && rover2.pos <= |replacement|
      invariant n <= |args1| && n <= |args2|
      invariant ArgsFrom(original, rover1.pos) == args1[n..] && ArgsFrom(replacement, rover2.pos) == args2[n..]
      invariant forall i | 0 <= i < n :: ValidArgumentReplacement(args1[i], args2[i])
      decreases |args2| - n
    {
      var argtype1, argtype2;
      argtype1, rover1 := NextFormatArgument(original, rover1.pos);
      argtype2, rover2 := NextFormatArgument(replacement, rover2.pos);
      if argtype2 == INVALID {
        break;
      } else if argtype1 == INVALID {
        return false;
      } else if !ValidArgumentReplacement(argtype1, argtype2) {
        return false;
      }
      n := n + 1;
    }
    return true;
  }

  lemma CompatibleIsReflexive(a: seq<FormatArg>)
    ensures Compatible(a, a)
  {}

  lemma CompatibleIsTransitive(a: seq<FormatArg>, b: seq<FormatArg>, c: seq<FormatArg>)
    requires Compatible(a, b) && Compatible(b, c)
    ensures Compatible(a, c)
  {
    forall i | 0 <= i < |c|
      ensures ValidArgumentReplacement(a[i], c[i])
    {
      assert ValidArgumentReplacement(a[i], b[i]) && ValidArgumentReplacement(b[i], c[i]);
    }
  }

  /** FormatStringReplacement: whatever the table says, the format used reads no wrong argument. */
  method FormatStringReplacement(table: StringTable, s: CString) returns (repl: CString)
    requires table.Valid()
    ensures Compatible(Args(s), Args(repl))
    ensures s in table.Contents() && Compatible(Args(s), Args(table.Contents()[s])) ==> repl == table.Contents()[s]
    ensures s !in table.Contents() || !Compatible(Args(s), Args(table.Contents()[s])) ==> repl == s
  {
    repl := table.String(s);
    var valid := ValidFormatReplacement(s, repl);
    if !valid {
      CompatibleIsReflexive(Args(s));
      return s;
    }
  }
}
