/** The pieces of Python's runtime the `cryo` package leans on: the
    exceptions it raises or lets escape, keyword-argument values,
    `str.split` on one character, and `str.format` with named fields. */
module PyRuntime {
  import opened Wrappers

  /** An exception escaping a call. */
  datatype PyError =
    | Exception(msg: string)                  // raise Exception('...')
    | KeyError(key: string)                   // str.format given no value for a named field
    | UnpackError(expected: nat, got: nat)    // ValueError: wrong number of values to unpack
    | InvalidIntLiteral(text: string)         // ValueError: invalid literal for int()

  /** A keyword-argument value of the command-line argument set. */
  datatype ArgValue = Flag(bool) | Strings(seq<string>) | Text(string) | Number(int)

  function Count(s: string, c: char): nat {
    if s == [] then 0 else (if s[0] == c then 1 else 0) + Count(s[1..], c)
  }

  /** `sep.join(parts)` for a one-character separator. */
  function JoinWith(parts: seq<string>, sep: char): string {
    if parts == [] then ""
    else if |parts| == 1 then parts[0]
    else parts[0] + [sep] + JoinWith(parts[1..], sep)
  }

  /** `s.split(sep)` for a one-character separator: the maximal runs
      between separators, so one more part than separators, and joining
      them with the separator gives back the text. */
  function Split(s: string, sep: char): (parts: seq<string>)
    ensures |parts| == Count(s, sep) + 1
    ensures forall i | 0 <= i < |parts| :: sep !in parts[i]
    ensures JoinWith(parts, sep) == s
  {
    if s == [] then [""]
    else
      var rest := Split(s[1..], sep);
      if s[0] == sep then
        assert [s[0]] + s[1..] == s;
        [""] + rest
      else
        var parts := [[s[0]] + rest[0]] + rest[1..];
        assert parts[1..] == rest[1..];
        assert [s[0]] + s[1..] == s;
        parts
  }

  /** Splitting `a + sep + b` when neither side holds the separator gives back both sides. */
  lemma {:induction false} SplitAtSeparator(a: string, b: string, sep: char)
    requires sep !in a && sep !in b
    ensures Split(a + [sep] + b, sep) == [a, b]
  {
    if a == [] {
      assert a + [sep] + b == [sep] + b;
      assert ([sep] + b)[1..] == b;
      SplitNoSeparator(b, sep);
    } else {
      assert (a + [sep] + b)[1..] == a[1..] + [sep] + b;
      SplitAtSeparator(a[1..], b, sep);
      assert [a[0]] + a[1..] == a;
    }
  }

  lemma {:induction false} SplitNoSeparator(s: string, sep: char)
    requires sep !in s
    ensures Split(s, sep) == [s]
  {
    if s != [] {
      SplitNoSeparator(s[1..], sep);
      assert [s[0]] + s[1..] == s;
    }
  }

  /** A format string, already cut into literal text and `{name}` fields. */
  datatype Piece = Lit(text: string) | Field(name: string)

  /** The text one piece stands for: its literal text, or the value named by the field. */
  function Substitute(p: Piece, args: map<string, string>): (r: Result<string, PyError>)
    ensures r.Err? <==> p.Field? && p.name !in args
  {
    match p
    case Lit(text) => Ok(text)
    case Field(name) => if name in args then Ok(args[name]) else Err(KeyError(name))
  }

  /** Two formatted parts, one after the other; the first error wins. */
  function Then(a: Result<string, PyError>, b: Result<string, PyError>): Result<string, PyError> {
    match a
    case Err(e) => Err(e)
    case Ok(x) =>
      match b
      case Err(e) => Err(e)
      case Ok(y) => Ok(x + y)
  }

  /** `template.format(**args)`: the fields replaced left to right; the first
      field without a value raises `KeyError`. */
  function Format(template: seq<Piece>, args: map<string, string>): (r: Result<string, PyError>)
    ensures r.Err? <==> exists i :: 0 <= i < |template| && template[i].Field? && template[i].name !in args
    ensures r.Err? ==> r.error.KeyError? && r.error.key !in args
  {
    if template == [] then Ok("")
    else
      match Substitute(template[0], args)
      case Err(e) => Err(e)
      case Ok(text) =>
        match Format(template[1..], args)
        case Err(e) =>
          assert exists i :: 0 <= i < |template[1..]| && template[1..][i].Field? && template[1..][i].name !in args;
          var i :| 0 <= i < |template[1..]| && template[1..][i].Field? && template[1..][i].name !in args;
          assert template[i + 1] == template[1..][i];
          Err(e)
        case Ok(rest) =>
          assert forall i | 1 <= i < |template| :: template[i] == template[1..][i - 1];
          Ok(text + rest)
  }

  /** Formatting a template in two parts formats each part and joins them. */
  lemma {:induction false} FormatConcat(a: seq<Piece>, b: seq<Piece>, args: map<string, string>)
    ensures Format(a + b, args) == Then(Format(a, args), Format(b, args))
  {
    if a == [] {
      assert a + b == b;
      if Format(b, args).Ok? {
        assert "" + Format(b, args).value == Format(b, args).value;
      }
    } else {
      assert (a + b)[1..] == a[1..] + b;
      FormatUnfold(a + b, args);
      FormatUnfold(a, args);
      FormatConcat(a[1..], b, args);
      ThenAssociative(Substitute(a[0], args), Format(a[1..], args), Format(b, args));
    }
  }

  /** The first piece, then the rest. */
  lemma FormatUnfold(t: seq<Piece>, args: map<string, string>)
    requires t != []
    ensures Format(t, args) == Then(Substitute(t[0], args), Format(t[1..], args))
  {
  }

  lemma ThenAssociative(x: Result<string, PyError>, y: Result<string, PyError>, z: Result<string, PyError>)
    ensures Then(Then(x, y), z) == Then(x, Then(y, z))
  {
    if x.Ok? && y.Ok? && z.Ok? {
      assert (x.value + y.value) + z.value == x.value + (y.value + z.value);
    }
  }

  /** A piece in front of a template whose fields all have values. */
  lemma FormatCons(p: Piece, rest: seq<Piece>, args: map<string, string>)
    requires Substitute(p, args).Ok? && Format(rest, args).Ok?
    ensures Format([p] + rest, args) == Ok(Substitute(p, args).value + Format(rest, args).value)
  {
    assert ([p] + rest)[0] == p;
    assert ([p] + rest)[1..] == rest;
  }

  /** A one-piece template formats to that piece's text. */
  lemma FormatPiece(p: Piece, args: map<string, string>)
    ensures Format([p], args) == Substitute(p, args)
  {
    assert [p][1..] == [];
    if Substitute(p, args).Ok? {
      assert Substitute(p, args).value + "" == Substitute(p, args).value;
    }
  }
}
