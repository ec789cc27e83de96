/**
 * The standard library of the interpreter: the builtins written in Rust
 * (`get_std_rs_fn`) and the lookup order between them and the library written
 * in Hawk itself (`run_fn_std`). The Hawk half is generated at build time and
 * is taken here as a given lookup from names to function objects, as are the
 * decimal library's constants and transcendental functions.
 */
module StandardLib {
  import opened Outcomes
  import opened Common
  import Operations
  import Csv

  /**
   * What the interpreter is built with besides its host callbacks:
   * `userPrint` renders an object for output (`Object::user_print`),
   * `showDecimal` prints a decimal, `math` is the decimal power functions,
   * `ln`, `sin`, `pi` and `e` come from the decimal library, and `hawkFn` and
   * `hawkFinder` are the generated Hawk standard library.
   */
  datatype Library = Library(
    userPrint: (Object, nat) -> Result<string>,
    showDecimal: real -> string,
    math: Operations.DecimalMath,
    ln: real -> real,
    sin: real -> real,
    pi: real,
    e: real,
    hawkFn: string -> Option<Object>,
    hawkFinder: string -> Option<Object>)

  /** The variants the `is*` builtins test for. */
  datatype Kind = DecimalKind | IntKind | BoolKind | StringKind | UncertainKind | ArrayKind | NullKind

  predicate OfKind(o: Object, k: Kind)
  {
    match k
    case DecimalKind => o.Decimal?
    case IntKind => o.Int?
    case BoolKind => o.Boolean?
    case StringKind => o.String?
    case UncertainKind => o.Uncertain?
    case ArrayKind => o.Array?
    case NullKind => o.Null?
  }

  /** The names under which each `is*` builtin is reachable. */
  function KindNamed(id: string): Option<Kind>
  {
    if id in {"isfloat", "is_float", "isDecimal"} then Some(DecimalKind)
    else if id in {"isint", "is_int", "isInt"} then Some(IntKind)
    else if id in {"isbool", "is_bool", "isBool"} then Some(BoolKind)
    else if id in {"isstring", "is_str", "isStr", "isstr", "is_string", "isString"} then Some(StringKind)
    else if id in {"isuncertain", "is_uncertain", "isUncertain", "hasuncertainty", "has_uncertainty", "hasUncertainty"}
    then Some(UncertainKind)
    else if id in {"isarray", "is_arr", "isArr", "isarr", "is_array", "isArray"} then Some(ArrayKind)
    else if id in {"isnull", "is_null", "isNull"} then Some(NullKind)
    else None
  }

  /** Every name `get_std_rs_fn` answers to. */
  predicate IsRustBuiltin(id: string)
  {
    id in {"readfile", "writefile", "read", "write", "pi", "ln10", "ln", "e", "sin", "len", "str", "string"}
    || KindNamed(id).Some?
  }

  /** Stand-in for the `{:?}` rendering of an argument list: the variant names, bracketed. */
  function DebugList(args: seq<Object>): string
  {
    "[" + RenderedItems(args) + "]"
  }

  function RenderedItems(args: seq<Object>): string
  {
    if |args| == 0 then ""
    else if |args| == 1 then Operations.Render(args[0])
    else Operations.Render(args[0]) + ", " + RenderedItems(args[1..])
  }

  const LN10: real := 2.30258509299

  /**
   * `get_std_rs_fn`: the Rust builtin named `id` applied to `args`, with the host
   * state after it, or `None` when no builtin has that name. Reading a missing
   * argument panics, as indexing the argument vector does; `writefile` and
   * `write` read their second argument before their first.
   */
  function StdRs<W>(lib: Library, cb: Callbacks<W>, w: W, line: nat, id: string, args: seq<Object>)
    : Result<(Option<Object>, W)>
  {
    if id == "readfile" then
      if |args| == 0 then Panic(OUT_OF_BOUNDS)
      else if args[0].String? then
        match cb.filein(w, args[0].s)
        case Some(text) => Ok((Some(Object.String(text)), w))
        case None => Fail("Expected string as filename, found " + args[0].s, line)
      else Ok((Some(Object.Null), w))
    else if id == "writefile" then
      if |args| < 2 then Panic(OUT_OF_BOUNDS)
      else if args[1].String? then
        if args[0].String? then
          match cb.fileout(w, args[0].s, args[1].s)
          case Some(w') => Ok((Some(Object.Null), w'))
          case None => Fail("Couldn't write file: " + args[0].s, line)
        else Fail("Expected string as filename, found " + Operations.Render(args[0]), line)
      else Ok((Some(Object.Null), w))
    else if id == "read" then
      if |args| == 0 then Panic(OUT_OF_BOUNDS)
      else if args[0].String? then
        var table :- Csv.ReadTable(cb, w, args[0].s, line);
        Ok((Some(table), w))
      else Fail("Expected string as filename, found " + Operations.Render(args[0]), line)
    else if id == "write" then
      if |args| < 2 then Panic(OUT_OF_BOUNDS)
      else if args[1].DataTable? then
        if args[0].String? then
          var w' :- Csv.WriteTable(cb, w, args[0].s, args[1], line, lib.showDecimal);
          Ok((Some(Object.Null), w'))
        else Fail("Expected string as filename, found " + Operations.Render(args[0]), line)
      else Ok((Some(Object.Null), w))
    else if id == "pi" then Ok((Some(Decimal(lib.pi)), w))
    else if id == "ln10" then Ok((Some(Decimal(LN10)), w))
    else if id == "ln" then
      if |args| == 0 then Panic(OUT_OF_BOUNDS)
      else if args[0].Decimal? then Ok((Some(Decimal(lib.ln(args[0].d))), w))
      else if args[0].Int? then Ok((Some(Decimal(lib.ln(IntToDecimal(args[0].i)))), w))
      else Ok((None, w))
    else if id == "e" then Ok((Some(Decimal(lib.e)), w))
    else if id == "sin" then
      if |args| == 0 then Panic(OUT_OF_BOUNDS)
      else if args[0].Decimal? then Ok((Some(Decimal(lib.sin(args[0].d))), w))
      else if args[0].Int? then Ok((Some(Decimal(lib.sin(IntToDecimal(args[0].i)))), w))
      else Fail("Expected number as argument to sin, found " + Operations.Render(args[0]), line)
    else if id == "len" then
      if |args| == 0 then Panic(OUT_OF_BOUNDS)
      else if args[0].Array? then
        // a vector this long cannot be allocated
        if |args[0].items| < I128_LIMIT then Ok((Some(Object.Int(|args[0].items|)), w)) else Panic("capacity overflow")
      else Fail("Expected array as argument to len, found " + Operations.Render(args[0]), line)
    else if id == "str" || id == "string" then
      if |args| == 1 then
        var text :- lib.userPrint(args[0], line);
        Ok((Some(Object.String(text)), w))
      else Fail("Expected exactly 1 input to str, got " + DebugList(args), line)
    else if KindNamed(id).Some? then
      Ok((Some(Boolean(|args| == 1 && OfKind(args[0], KindNamed(id).value))), w))
    else Ok((None, w))
  }

  /**
   * `run_fn_std`: a Rust builtin first, an error of it passed on; then the Hawk
   * standard library; `None` when neither knows the name.
   */
  function RunFnStd<W>(lib: Library, cb: Callbacks<W>, w: W, line: nat, id: string, args: seq<Object>)
    : Result<(Option<Object>, W)>
  {
    var rs :- StdRs(lib, cb, w, line, id, args);
    if rs.0.Some? then Ok(rs)
    else if lib.hawkFn(id).Some? then Ok((lib.hawkFn(id), rs.1))
    else Ok((None, rs.1))
  }

  // ---------------------------------------------------------------------------
  // The lookup order.

  /** A Rust builtin that answers, or fails, decides the outcome; the Hawk library is not consulted. */
  lemma RustBuiltinFirst<W>(lib: Library, cb: Callbacks<W>, w: W, line: nat, id: string, args: seq<Object>)
    requires !StdRs(lib, cb, w, line, id, args).Ok? || StdRs(lib, cb, w, line, id, args).value.0.Some?
    ensures RunFnStd(lib, cb, w, line, id, args) == StdRs(lib, cb, w, line, id, args)
  {
  }

  /** Only a name the Rust builtins do not answer reaches the Hawk library, with the host state untouched. */
  lemma HawkLibrarySecond<W>(lib: Library, cb: Callbacks<W>, w: W, line: nat, id: string, args: seq<Object>)
    requires StdRs(lib, cb, w, line, id, args).Ok? && StdRs(lib, cb, w, line, id, args).value.0.None?
    ensures RunFnStd(lib, cb, w, line, id, args) == Ok((lib.hawkFn(id), w))
  {
    StdRsNoneKeepsHost(lib, cb, w, line, id, args);
  }

  /** The builtins answer `None` without touching the host. */
  lemma StdRsNoneKeepsHost<W>(lib: Library, cb: Callbacks<W>, w: W, line: nat, id: string, args: seq<Object>)
    requires StdRs(lib, cb, w, line, id, args).Ok? && StdRs(lib, cb, w, line, id, args).value.0.None?
    ensures StdRs(lib, cb, w, line, id, args).value.1 == w
  {
  }

  /**
   * The builtins answer exactly the names they list: an unlisted name gives
   * `None`, and a listed one gives a value or fails, except `ln` on an argument
   * that is not a number.
   */
  lemma {:induction false} BuiltinNames<W>(lib: Library, cb: Callbacks<W>, w: W, line: nat, id: string, args: seq<Object>)
    ensures !IsRustBuiltin(id) ==> StdRs(lib, cb, w, line, id, args) == Ok((None, w))
    ensures IsRustBuiltin(id) && StdRs(lib, cb, w, line, id, args).Ok? && StdRs(lib, cb, w, line, id, args).value.0.None?
      ==> id == "ln" && |args| > 0 && !IsNumber(args[0])
  {
    if !IsRustBuiltin(id) {
      assert KindNamed(id).None?;
    }
  }

  /** Neither library knows the name: `None`. */
  lemma UnknownEverywhere<W>(lib: Library, cb: Callbacks<W>, w: W, line: nat, id: string, args: seq<Object>)
    requires !IsRustBuiltin(id) && lib.hawkFn(id).None?
    ensures RunFnStd(lib, cb, w, line, id, args) == Ok((None, w))
  {
    BuiltinNames(lib, cb, w, line, id, args);
  }

  // ---------------------------------------------------------------------------
  // The builtins.

  /** `len` of an array is its length; of anything else, an error naming it. */
  lemma LenBuiltin<W>(lib: Library, cb: Callbacks<W>, w: W, line: nat, a: Object, rest: seq<Object>)
    ensures a.Array? && |a.items| < I128_LIMIT ==>
      StdRs(lib, cb, w, line, "len", [a] + rest) == Ok((Some(Object.Int(|a.items|)), w))
    ensures !a.Array? ==>
      StdRs(lib, cb, w, line, "len", [a] + rest) == Fail("Expected array as argument to len, found " + Operations.Render(a), line)
  {
    assert ([a] + rest)[0] == a;
  }

  /** Each `is*` builtin is true exactly for one argument of its variant, and false for any other arity. */
  lemma {:induction false} KindBuiltins<W>(lib: Library, cb: Callbacks<W>, w: W, line: nat, id: string, args: seq<Object>, k: Kind)
    requires KindNamed(id) == Some(k)
    ensures StdRs(lib, cb, w, line, id, args).Ok?
    ensures StdRs(lib, cb, w, line, id, args).value == (Some(Boolean(|args| == 1 && OfKind(args[0], k))), w)
    ensures |args| != 1 ==> StdRs(lib, cb, w, line, id, args).value.0 == Some(Boolean(false))
  {
    assert !(id in {"readfile", "writefile", "read", "write", "pi", "ln10", "ln", "e", "sin", "len", "str", "string"});
  }

  /** `str` of one argument is its printed text; any other arity is an error showing the arguments. */
  lemma StrBuiltin<W>(lib: Library, cb: Callbacks<W>, w: W, line: nat, id: string, args: seq<Object>)
    requires id == "str" || id == "string"
    ensures |args| == 1 && lib.userPrint(args[0], line).Ok? ==>
      StdRs(lib, cb, w, line, id, args) == Ok((Some(Object.String(lib.userPrint(args[0], line).value)), w))
    ensures |args| == 1 && !lib.userPrint(args[0], line).Ok? ==>
      StdRs(lib, cb, w, line, id, args) == lib.userPrint(args[0], line).PropagateFailure()
    ensures |args| != 1 ==>
      StdRs(lib, cb, w, line, id, args) == Fail("Expected exactly 1 input to str, got " + DebugList(args), line)
  {
  }

  /** `readfile` of a name is the host's content, an error when the host fails, and Null for a non-String. */
  lemma ReadfileBuiltin<W>(lib: Library, cb: Callbacks<W>, w: W, line: nat, file: Object, rest: seq<Object>)
    ensures !file.String? ==> StdRs(lib, cb, w, line, "readfile", [file] + rest) == Ok((Some(Object.Null), w))
    ensures file.String? && cb.filein(w, file.s).Some? ==>
      StdRs(lib, cb, w, line, "readfile", [file] + rest) == Ok((Some(Object.String(cb.filein(w, file.s).value)), w))
    ensures file.String? && cb.filein(w, file.s).None? ==>
      StdRs(lib, cb, w, line, "readfile", [file] + rest).Err?
  {
    assert ([file] + rest)[0] == file;
  }

  /**
   * `writefile(file, content)` writes only when both are Strings; a
   * non-String content gives Null with the host untouched, and a non-String
   * name with String content is an error.
   */
  lemma WritefileBuiltin<W>(lib: Library, cb: Callbacks<W>, w: W, line: nat, file: Object, content: Object, rest: seq<Object>)
    ensures !content.String? ==>
      StdRs(lib, cb, w, line, "writefile", [file, content] + rest) == Ok((Some(Object.Null), w))
    ensures content.String? && !file.String? ==>
      StdRs(lib, cb, w, line, "writefile", [file, content] + rest).Err?
    ensures content.String? && file.String? ==>
      StdRs(lib, cb, w, line, "writefile", [file, content] + rest)
        == match cb.fileout(w, file.s, content.s)
           case Some(w') => Ok((Some(Object.Null), w'))
           case None => Fail("Couldn't write file: " + file.s, line)
  {
    assert ([file, content] + rest)[0] == file && ([file, content] + rest)[1] == content;
  }

  /** `writefile` with fewer than two arguments panics, like the index into the argument vector. */
  lemma WritefileNeedsTwo<W>(lib: Library, cb: Callbacks<W>, w: W, line: nat, args: seq<Object>)
    requires |args| < 2
    ensures StdRs(lib, cb, w, line, "writefile", args) == Panic(OUT_OF_BOUNDS)
  {
  }
}
