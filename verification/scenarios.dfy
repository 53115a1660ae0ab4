/** Whole invocations of `compile`, worked out on concrete arguments. */
module Scenarios {
  import opened Wrappers
  import opened JsValues
  import opened JsObjects
  import opened Gcc
  import opened GccStreams
  import opened Sequences

  /**
   * Two sources compiled into `out.js` with a callback: the arguments
   * resolve to that file and that callback, and the command line is the
   * prefix, both sources, the output file and the default option.
   */
  lemma BuildIntoFile(compilerPath: string, handler: nat)
    ensures var r := Resolve(Str("out.js"), Func(handler, true), Undef);
      && r == Resolved(Str("out.js"), Bool(false), Func(handler, true))
      && Launches(r)
      && ArgVector(StockConfig(compilerPath), Arr([Str("a.js"), Str("b.js")]), r) ==
           [Str("-jar"), Str(compilerPath), Str("--js"), Str("a.js"), Str("--js"), Str("b.js"),
            Str("--js_output_file"), Str("out.js"), Str("--compilation_level"), Str("SIMPLE_OPTIMIZATIONS")]
  {
    var p := [Str("-jar"), Str(compilerPath)];
    var s := [Str("--js"), Str("a.js"), Str("--js"), Str("b.js")];
    var d := [Str("--js_output_file"), Str("out.js")];
    var o := [Str("--compilation_level"), Str("SIMPLE_OPTIMIZATIONS")];
    assert p + s + d + o ==
      [Str("-jar"), Str(compilerPath), Str("--js"), Str("a.js"), Str("--js"), Str("b.js"),
       Str("--js_output_file"), Str("out.js"), Str("--compilation_level"), Str("SIMPLE_OPTIMIZATIONS")];
    var r := Resolve(Str("out.js"), Func(handler, true), Undef);
    assert r == Resolved(Str("out.js"), Bool(false), Func(handler, true));
    assert SourceArgs([Str("a.js"), Str("b.js")]) == s by {
      var files := [Str("a.js"), Str("b.js")];
      SourceArgsAt(files, 0);
      SourceArgsAt(files, 1);
    }
    assert DestArgs(r.dest) == d;
    assert OptionArgs(MergeOptions(DefaultOptions, r.opts)) == o by {
      MergeFalsyIsDefaults(DefaultOptions, r.opts);
      DefaultOptionArgs();
    }
    assert ArgVector(StockConfig(compilerPath), Arr([Str("a.js"), Str("b.js")]), r) == p + s + d + o;
  }

  /** The default options alone give `--compilation_level SIMPLE_OPTIMIZATIONS`. */
  lemma DefaultOptionArgs()
    ensures OptionArgs(OwnEntries(Obj(DefaultOptions))) ==
      [Str("--compilation_level"), Str("SIMPLE_OPTIMIZATIONS")]
  {
    var d := DefaultOptions;
    DefaultOwnEntries();
    var level := [Str("SIMPLE_OPTIMIZATIONS")];
    assert FlagArgs("compilation_level", level) == [Str("--compilation_level"), Str("SIMPLE_OPTIMIZATIONS")] by {
      assert level[..0] == [];
      assert "--" + "compilation_level" == "--compilation_level";
    }
    assert OptionArgs(d) == OptionArgs(d[..0]) + FlagArgs("compilation_level", level) by {
      assert ToArray(d[0].1) == level;
    }
    assert d[..0] == [];
  }

  /** A clean exit after the compiled text: one call, no error, the text as standard output. */
  lemma CleanExit()
    ensures Invocations([StdoutData("compiled;"), Exit(Some(0))]) == [Invocation(None, "compiled;", "")]
  {
    var data := [StdoutData("compiled;")];
    ChunkText([], "compiled;");
    assert [] + data == data;
    assert StdoutText(data) == "compiled;";
    assert StderrText(data) == "";
    assert ExitCount(data) == 0 by { assert data[..0] == []; }
    ExitAfterData(data, Some(0));
    assert ExitError(Some(0), "") == None;
    assert data + [Exit(Some(0))] == [StdoutData("compiled;"), Exit(Some(0))];
  }

  /** A compiler that exits with code 2: the callback gets an error built from the error text and the code. */
  lemma FailedExit()
    ensures Invocations([StderrData("syntax error"), Exit(Some(2))]) ==
      [Invocation(Some(Failure("syntax error", Some(2))), "", "syntax error")]
  {
    var data := [StderrData("syntax error")];
    ChunkText([], "syntax error");
    assert [] + data == data;
    assert StdoutText(data) == "";
    assert StderrText(data) == "syntax error";
    assert ExitCount(data) == 0 by { assert data[..0] == []; }
    ExitAfterData(data, Some(2));
    assert ExitError(Some(2), "syntax error") == Some(Failure("syntax error", Some(2)));
    assert data + [Exit(Some(2))] == [StderrData("syntax error"), Exit(Some(2))];
  }

  /** The caller options of the examples below: an array, a replaced default and a flag. */
  function CallerOptions(): seq<Entry>
  {
    [("externs", Arr([Str("x.js"), Str("y.js"), Str("z.js")])),
     ("compilation_level", Str("ADVANCED_OPTIMIZATIONS")),
     ("debug", Bool(true))]
  }

  /** The options the examples below end with. */
  function MergedCallerOptions(): seq<Entry>
  {
    [("compilation_level", Str("ADVANCED_OPTIMIZATIONS")),
     ("externs", Arr([Str("x.js"), Str("y.js"), Str("z.js")])),
     ("debug", Bool(true))]
  }

  /**
   * Caller options over the defaults: `compilation_level` is replaced in
   * its place, the other keys follow in the caller's order.
   */
  lemma CallerOptionsMerge()
    ensures MergeOptions(DefaultOptions, Obj(CallerOptions())) == MergedCallerOptions()
  {
    DefaultOwnEntries();
    CallerOwnEntries();
    CallerOptionsOverDefaults();
  }

  /** The default options object has exactly the one property it writes. */
  lemma DefaultOwnEntries()
    ensures OwnEntries(Obj(DefaultOptions)) == DefaultOptions
  {
    var d := DefaultOptions;
    assert d[0].0 != ProtoKey;
    assert !HasKey(d, ProtoKey);
    AssignOntoEmpty(d);
  }

  /** The caller's options object has exactly the three properties it writes, in order. */
  lemma CallerOwnEntries()
    ensures OwnEntries(Obj(CallerOptions())) == CallerOptions()
  {
    var c := CallerOptions();
    assert c[0].0 != ProtoKey && c[1].0 != ProtoKey && c[2].0 != ProtoKey;
    assert !HasKey(c, ProtoKey);
    assert Unique(c);
    AssignOntoEmpty(c);
  }

  /** The caller's first write adds `externs` after the default key. */
  lemma CallerFirstWrite()
    ensures Assign(DefaultOptions, CallerOptions()[..1]) == DefaultOptions + [CallerOptions()[0]]
  {
    var caller := CallerOptions();
    AssignStep(DefaultOptions, caller, 0);
    assert caller[..0] == [];
    PutNew(DefaultOptions, "externs", caller[0].1);
  }

  /** The caller's second write replaces `compilation_level` where it stands. */
  lemma CallerSecondWrite()
    ensures Assign(DefaultOptions, CallerOptions()[..2]) == [CallerOptions()[1], CallerOptions()[0]]
  {
    var caller := CallerOptions();
    var m1 := DefaultOptions + [caller[0]];
    CallerFirstWrite();
    AssignStep(DefaultOptions, caller, 1);
    PutExisting(m1, "compilation_level", caller[1].1, 0);
    assert m1[0 := caller[1]] == [caller[1], caller[0]];
  }

  /** The caller's third write adds `debug` last. */
  lemma CallerOptionsOverDefaults()
    ensures Assign(DefaultOptions, CallerOptions()) == MergedCallerOptions()
  {
    var caller := CallerOptions();
    var m2 := [caller[1], caller[0]];
    assert m2 + [caller[2]] == MergedCallerOptions();
    CallerSecondWrite();
    AssignStep(DefaultOptions, caller, 2);
    assert caller[..3] == caller;
    assert !HasKey(m2, "debug");
    PutNew(m2, "debug", caller[2].1);
  }

  /** One option with a string value: `--<key> <value>`. */
  lemma StringOption(key: string, value: string)
    ensures OptionArgs([(key, Str(value))]) == [Str("--" + key), Str(value)]
  {
    var single := [(key, Str(value))];
    assert single[..0] == [];
    var values := [Str(value)];
    assert values[..0] == [];
    assert FlagArgs(key, values) == [Str("--" + key), Str(value)];
    assert OptionArgs(single) == [] + FlagArgs(key, values);
  }

  /** One option whose value is `true`: a bare `--<key>`. */
  lemma TrueOption(key: string)
    ensures OptionArgs([(key, Bool(true))]) == [Str("--" + key)]
  {
    var single := [(key, Bool(true))];
    assert single[..0] == [];
    var values := [Bool(true)];
    assert values[..0] == [];
    assert FlagArgs(key, values) == [Str("--" + key)];
    assert OptionArgs(single) == [] + FlagArgs(key, values);
  }

  /** Those merged options on the command line: an array gives one pair per element, `true` a bare flag. */
  lemma CallerOptionArgs()
    ensures OptionArgs(MergedCallerOptions()) ==
      [Str("--compilation_level"), Str("ADVANCED_OPTIMIZATIONS"),
       Str("--externs"), Str("x.js"), Str("--externs"), Str("y.js"), Str("--externs"), Str("z.js"),
       Str("--debug")]
  {
    var a := [Str("--compilation_level"), Str("ADVANCED_OPTIMIZATIONS")];
    var b := [Str("--externs"), Str("x.js"), Str("--externs"), Str("y.js"), Str("--externs"), Str("z.js")];
    var c := [Str("--debug")];
    assert a + b + c ==
      [Str("--compilation_level"), Str("ADVANCED_OPTIMIZATIONS"),
       Str("--externs"), Str("x.js"), Str("--externs"), Str("y.js"), Str("--externs"), Str("z.js"),
       Str("--debug")];
    var ops := MergedCallerOptions();
    assert OptionArgs(ops) == OptionArgs(ops[..1]) + FlagArgs("externs", ToArray(ops[1].1)) + OptionArgs(ops[2..]) by {
      OptionArgsAt(ops, 1);
    }
    assert OptionArgs(ops[..1]) == a by {
      assert ops[..1] == [("compilation_level", Str("ADVANCED_OPTIMIZATIONS"))];
      LevelArgs();
    }
    assert OptionArgs(ops[2..]) == c by {
      assert ops[2..] == [("debug", Bool(true))];
      DebugArgs();
    }
    assert FlagArgs("externs", ToArray(ops[1].1)) == b by {
      assert ToArray(ops[1].1) == [Str("x.js"), Str("y.js"), Str("z.js")];
      ExternsArgs();
    }
  }

  /** The replaced level on the command line. */
  lemma LevelArgs()
    ensures OptionArgs([("compilation_level", Str("ADVANCED_OPTIMIZATIONS"))]) ==
      [Str("--compilation_level"), Str("ADVANCED_OPTIMIZATIONS")]
  {
    StringOption("compilation_level", "ADVANCED_OPTIMIZATIONS");
    assert "--" + "compilation_level" == "--compilation_level";
  }

  /** The `debug` flag on the command line. */
  lemma DebugArgs()
    ensures OptionArgs([("debug", Bool(true))]) == [Str("--debug")]
  {
    TrueOption("debug");
    assert "--" + "debug" == "--debug";
  }

  /** Three string values of one option: three `--externs <file>` pairs. */
  lemma ExternsArgs()
    ensures FlagArgs("externs", [Str("x.js"), Str("y.js"), Str("z.js")]) ==
      [Str("--externs"), Str("x.js"), Str("--externs"), Str("y.js"), Str("--externs"), Str("z.js")]
  {
    var ext := [Str("x.js"), Str("y.js"), Str("z.js")];
    var b := [Str("--externs"), Str("x.js"), Str("--externs"), Str("y.js"), Str("--externs"), Str("z.js")];
    assert "--" + "externs" == "--externs";
    AllStringValues("externs", ext);
    var r := FlagArgs("externs", ext);
    assert r[0] == b[0] && r[1] == b[1];
    assert r[2] == b[2] && r[3] == b[3];
    assert r[4] == b[4] && r[5] == b[5];
  }

  /**
   * An async function is not taken for a callback: passed as `dest` or as
   * `opts` with no other callback, nothing is launched; after a string
   * `dest` it stays in the options position and the compiler runs without
   * anyone to call at exit.
   */
  lemma AsyncCallbackIgnored(id: nat, src: JsValue)
    ensures !Launches(Resolve(Func(id, false), Undef, Undef))
    ensures var r := Resolve(Str("out.js"), Func(id, false), Undef);
      && r == Resolved(Str("out.js"), Func(id, false), Undef)
      && Launches(r)
      && ArgVector(StockConfig("gcc.jar"), src, r) == ArgVector(StockConfig("gcc.jar"), src, Resolved(Str("out.js"), Undef, Undef))
  {
    assert OwnEntries(Func(id, false)) == [];
    AppendEmpty(OwnEntries(Obj(DefaultOptions)));
  }

  /**
   * A `__proto__` key among the caller's options, as `JSON.parse` can
   * produce, is written through the prototype setter and never reaches the
   * command line: the options are the defaults alone.
   */
  lemma ProtoOptionDropped()
    ensures MergeOptions(DefaultOptions, Obj([(ProtoKey, Obj([]))])) == DefaultOptions
  {
    var d := DefaultOptions;
    DefaultOwnEntries();
    var caller := [(ProtoKey, Obj([]))];
    assert caller[..0] == [];
    assert OwnEntries(Obj(caller)) == [];
    assert Assign(d, []) == d;
  }

  /** `compile(src)` and `compile(src, "")` launch nothing. */
  lemma NothingToDo()
    ensures !Launches(Resolve(Undef, Undef, Undef))
    ensures !Launches(Resolve(Str(""), Undef, Undef))
  {
  }
}
