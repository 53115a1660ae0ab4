/**
 * The Closure Compiler wrapper's `compile`: everything it decides before it
 * launches the compiler. It resolves the optional trailing arguments, stops
 * when the output would go nowhere, and otherwise builds the command line
 * `java -jar <archive> [--js <file>]* [--js_output_file <dest>] [--<key> [<value>]]*`.
 * The launch itself is returned as a `Plan`.
 */
module Gcc {
  import opened Wrappers
  import opened JsValues
  import opened JsObjects
  import opened Sequences

  /** The executable that runs the compiler archive, unless a caller replaces it. */
  const DefaultJava: string := "java"

  /** The options every invocation starts from, unless a caller replaces them. */
  const DefaultOptions: seq<Entry> := [("compilation_level", Str("SIMPLE_OPTIMIZATIONS"))]

  /**
   * What `compile` reads besides its own arguments: the executable, the
   * path of the bundled compiler archive, and the property writes of the
   * default options object.
   */
  datatype Config = Config(java: string, compilerPath: string, defaults: seq<Entry>)

  /** `compile` with the executable and the defaults it starts with. */
  function StockConfig(compilerPath: string): Config
  {
    Config(DefaultJava, compilerPath, DefaultOptions)
  }

  /**
   * `isFunction`: a truthy value whose class is `Function`. Every such value
   * is one `typeof` reports as "function", but async and generator functions
   * are reported as "function" too and are not of that class.
   */
  predicate IsFunction(v: JsValue)
    ensures IsFunction(v) ==> TypeOf(v) == "function" && Truthy(v)
    ensures TypeOf(v) == "function" ==> (IsFunction(v) <==> v.plain)
  {
    v.Func? && v.plain
  }

  /** `toArray`: an array as it is, anything else as a one-element list. */
  function ToArray(v: JsValue): seq<JsValue>
  {
    if v.Arr? then v.elems else [v]
  }

  /**
   * `toArray` leaves a list as it is and wraps anything else in a list of
   * its own, so applying it again to its result changes nothing.
   */
  lemma ToArrayIdempotent(v: JsValue)
    ensures ToArray(Arr(ToArray(v))) == ToArray(v)
    ensures !v.Arr? ==> ToArray(v) == [v]
    ensures v.Arr? ==> ToArray(v) == v.elems
  {
  }

  /** The trailing arguments of `compile` once their runtime types have been looked at. */
  datatype Resolved = Resolved(dest: JsValue, opts: JsValue, callback: JsValue)

  /**
   * Optional-argument resolution. A `dest` that is not a string shifts the
   * arguments left (and is replaced by `false`); then options that are a
   * function are taken as the callback.
   */
  function Resolve(dest: JsValue, opts: JsValue, callback: JsValue): (r: Resolved)
    ensures r.dest.Str? || r.dest == Bool(false)
    ensures TypeOf(dest) == "string" ==> r.dest == dest
    ensures !IsFunction(r.opts)
    ensures r.callback == callback || r.callback == opts || r.callback == dest
  {
    var (d, o, c) := if TypeOf(dest) != "string" then (Bool(false), dest, opts) else (dest, opts, callback);
    if IsFunction(o) then Resolved(d, Bool(false), o) else Resolved(d, o, c)
  }

  /** The no-op rule: a compiler is launched only if its output goes to a file or to a callback. */
  predicate Launches(r: Resolved)
    ensures Launches(r) <==> Truthy(r.dest) || (TypeOf(r.callback) == "function" && r.callback.plain)
  {
    Truthy(r.dest) || IsFunction(r.callback)
  }

  /** The fixed start of every command line. */
  function Prefix(compilerPath: string): seq<JsValue>
  {
    [Str("-jar"), Str(compilerPath)]
  }

  /** One `--js <file>` pair per source, in order. */
  function SourceArgs(files: seq<JsValue>): seq<JsValue>
  {
    if files == [] then []
    else SourceArgs(files[..|files| - 1]) + [Str("--js"), files[|files| - 1]]
  }

  /** Two tokens per source. */
  lemma {:induction false} SourceArgsLength(files: seq<JsValue>)
    ensures |SourceArgs(files)| == 2 * |files|
    decreases |files|
  {
    if files != [] {
      SourceArgsLength(files[..|files| - 1]);
    }
  }

  /** Source `i` is the pair at positions `2 * i` and `2 * i + 1`. */
  lemma {:induction false} SourceArgsAt(files: seq<JsValue>, i: int)
    requires 0 <= i < |files|
    ensures 2 * i + 1 < |SourceArgs(files)|
    ensures SourceArgs(files)[2 * i] == Str("--js") && SourceArgs(files)[2 * i + 1] == files[i]
    decreases |files|
  {
    var front := files[..|files| - 1];
    SourceArgsLength(front);
    if i < |front| {
      SourceArgsAt(front, i);
      assert front[i] == files[i];
    }
  }

  /** `--js_output_file <dest>` when there is a destination. */
  function DestArgs(dest: JsValue): seq<JsValue>
  {
    if Truthy(dest) then [Str("--js_output_file"), dest] else []
  }

  /** How many of the values are strings. */
  function StringCount(values: seq<JsValue>): nat
  {
    if values == [] then 0
    else StringCount(values[..|values| - 1]) + (if values[|values| - 1].Str? then 1 else 0)
  }

  /** For each value of one option: `--<key>`, then the value itself when it is a string. */
  function FlagArgs(key: string, values: seq<JsValue>): seq<JsValue>
  {
    if values == [] then []
    else
      var last := values[|values| - 1];
      FlagArgs(key, values[..|values| - 1]) + [Str("--" + key)] + (if last.Str? then [last] else [])
  }

  /** One `--<key>` per value, and one more token per string value. */
  lemma {:induction false} FlagArgsLength(key: string, values: seq<JsValue>)
    ensures StringCount(values) <= |values|
    ensures |FlagArgs(key, values)| == |values| + StringCount(values)
    decreases |values|
  {
    if values != [] {
      FlagArgsLength(key, values[..|values| - 1]);
    }
  }

  /** The tokens of every option, key by key in order. */
  function OptionArgs(options: seq<Entry>): seq<JsValue>
  {
    if options == [] then []
    else
      var last := options[|options| - 1];
      OptionArgs(options[..|options| - 1]) + FlagArgs(last.0, ToArray(last.1))
  }

  /** The caller's options laid over the defaults; falsy options add nothing. */
  function MergeOptions(defaults: seq<Entry>, opts: JsValue): seq<Entry>
  {
    Assign(Assign([], OwnEntries(Obj(defaults))), if Truthy(opts) then OwnEntries(opts) else [])
  }

  /** A command line after the executable: prefix, sources, destination, options. */
  function CommandLine(compilerPath: string, files: seq<JsValue>, dest: JsValue, options: seq<Entry>): seq<JsValue>
  {
    Prefix(compilerPath) + SourceArgs(files) + DestArgs(dest) + OptionArgs(options)
  }

  /** The whole command line `compile` passes to the executable. */
  function ArgVector(config: Config, src: JsValue, r: Resolved): seq<JsValue>
  {
    CommandLine(config.compilerPath, ToArray(src), r.dest, MergeOptions(config.defaults, r.opts))
  }

  /**
   * What `compile` decides: nothing at all, or a launch of `command` with
   * `args`, its standard output piped into the file `output` when there is
   * one, and `handler` called at exit when there is one.
   */
  datatype Plan =
    | NoOp
    | Spawn(command: string, args: seq<JsValue>, output: Option<string>, handler: Option<JsValue>)

  /** Appends one `--js <file>` pair per source to `args0`. */
  method PushSources(args0: seq<JsValue>, src: JsValue) returns (args: seq<JsValue>)
    ensures args == args0 + SourceArgs(ToArray(src))
  {
    args := args0;
    var files := ToArray(src);
    for i := 0 to |files|
      invariant args == args0 + SourceArgs(files[..i])
    {
      assert files[..i + 1][..i] == files[..i];
      args := args + [Str("--js"), files[i]];
    }
    assert files[..|files|] == files;
  }

  /** Copies the defaults into a fresh options object, then the caller's options over them. */
  method ExtendOptions(defaults: seq<Entry>, opts: JsValue) returns (options: seq<Entry>)
    ensures options == MergeOptions(defaults, opts)
  {
    options := [];
    var base := OwnEntries(Obj(defaults));
    for i := 0 to |base|
      invariant options == Assign([], base[..i])
    {
      AssignStep([], base, i);
      options := Put(options, base[i].0, base[i].1);
    }
    assert base[..|base|] == base;
    if Truthy(opts) {
      var overlay := OwnEntries(opts);
      ghost var start := options;
      for i := 0 to |overlay|
        invariant options == Assign(start, overlay[..i])
      {
        AssignStep(start, overlay, i);
        options := Put(options, overlay[i].0, overlay[i].1);
      }
      assert overlay[..|overlay|] == overlay;
    }
  }

  /** Appends the tokens of every option to `args0`. */
  method PushOptions(args0: seq<JsValue>, options: seq<Entry>) returns (args: seq<JsValue>)
    ensures args == args0 + OptionArgs(options)
  {
    args := args0;
    for i := 0 to |options|
      invariant args == args0 + OptionArgs(options[..i])
    {
      args := PushFlags(args, options[i].0, ToArray(options[i].1));
      OptionArgsStep(options, i);
      Assoc(args0, OptionArgs(options[..i]), FlagArgs(options[i].0, ToArray(options[i].1)));
    }
    assert options[..|options|] == options;
  }

  /** Appends the tokens of one option, value by value, to `args0`. */
  method PushFlags(args0: seq<JsValue>, key: string, values: seq<JsValue>) returns (args: seq<JsValue>)
    ensures args == args0 + FlagArgs(key, values)
  {
    args := args0;
    for j := 0 to |values|
      invariant args == args0 + FlagArgs(key, values[..j])
    {
      FlagArgsStep(key, values, j);
      args := args + [Str("--" + key)];
      if TypeOf(values[j]) == "string" {
        args := args + [values[j]];
      }
    }
    assert values[..|values|] == values;
  }

  /** One more value: the step of the inner loop of `PushOptions`. */
  lemma FlagArgsStep(key: string, values: seq<JsValue>, j: int)
    requires 0 <= j < |values|
    ensures FlagArgs(key, values[..j + 1]) ==
      FlagArgs(key, values[..j]) + [Str("--" + key)] + (if values[j].Str? then [values[j]] else [])
  {
    assert values[..j + 1][..j] == values[..j];
  }

  /** One more option: the step of the outer loop of `PushOptions`. */
  lemma OptionArgsStep(options: seq<Entry>, i: int)
    requires 0 <= i < |options|
    ensures OptionArgs(options[..i + 1]) == OptionArgs(options[..i]) + FlagArgs(options[i].0, ToArray(options[i].1))
  {
    assert options[..i + 1][..i] == options[..i];
  }

  /**
   * `compile(src, dest, opts, callback)`: a missing argument is `Undef`.
   * Launches exactly when the output goes somewhere, and then with the
   * command line `ArgVector`.
   */
  method Compile(config: Config, src: JsValue, dest: JsValue, opts: JsValue, callback: JsValue)
    returns (plan: Plan)
    ensures var r := Resolve(dest, opts, callback);
      && (plan.NoOp? <==> !Launches(r))
      && (plan.Spawn? ==>
            && plan.command == config.java
            && plan.args == ArgVector(config, src, r)
            && plan.output == (if Truthy(r.dest) then Some(r.dest.s) else None)
            && plan.handler == (if IsFunction(r.callback) then Some(r.callback) else None))
  {
    var r := Resolve(dest, opts, callback);
    if !Truthy(r.dest) && !IsFunction(r.callback) {
      return NoOp;
    }
    var args := Prefix(config.compilerPath);
    args := PushSources(args, src);
    if Truthy(r.dest) {
      args := args + [Str("--js_output_file"), r.dest];
    }
    assert args == Prefix(config.compilerPath) + SourceArgs(ToArray(src)) + DestArgs(r.dest);
    var options := ExtendOptions(config.defaults, r.opts);
    // `options` is always an object, so its tokens are always appended.
    args := PushOptions(args, options);
    var output := if Truthy(r.dest) then Some(r.dest.s) else None;
    var handler := if IsFunction(r.callback) then Some(r.callback) else None;
    plan := Spawn(config.java, args, output, handler);
  }

  /** Exactly when `compile` launches, in terms of the arguments as passed. */
  lemma LaunchesIff(dest: JsValue, opts: JsValue, callback: JsValue)
    ensures Launches(Resolve(dest, opts, callback)) <==>
      if dest.Str? then dest.s != "" || IsFunction(opts) || IsFunction(callback)
      else IsFunction(dest) || IsFunction(opts)
  {
  }

  /** Once `dest` is not a string the fourth argument is never looked at. */
  lemma ShiftIgnoresFourth(dest: JsValue, opts: JsValue, c1: JsValue, c2: JsValue)
    requires !dest.Str?
    ensures Resolve(dest, opts, c1) == Resolve(dest, opts, c2)
  {
  }

  /** `compile(src, dest, opts, callback)` with a string `dest`, in every case. */
  lemma ResolveWithDest(dest: string, opts: JsValue, callback: JsValue)
    ensures var r := Resolve(Str(dest), opts, callback);
      && r.dest == Str(dest)
      && (IsFunction(opts) ==> r.opts == Bool(false) && r.callback == opts)
      && (!IsFunction(opts) ==> r.opts == opts && r.callback == callback)
  {
  }

  /** `compile(src, x, y, z)` with a non-string `x`: the arguments shift left. */
  lemma ResolveWithoutDest(dest: JsValue, opts: JsValue, callback: JsValue)
    requires !dest.Str?
    ensures var r := Resolve(dest, opts, callback);
      && r.dest == Bool(false)
      && (IsFunction(dest) ==> r.opts == Bool(false) && r.callback == dest)
      && (!IsFunction(dest) ==> r.opts == dest && r.callback == opts)
  {
  }

  /**
   * The layout of the command line: the fixed prefix, then the source pairs
   * in order, then the output file exactly when there is a destination,
   * then the options.
   */
  lemma CommandLineLayout(compilerPath: string, files: seq<JsValue>, dest: JsValue, options: seq<Entry>)
    ensures var a := CommandLine(compilerPath, files, dest, options);
      var n := |files|;
      var opts := OptionArgs(options);
      && |a| == 2 + 2 * n + (if Truthy(dest) then 2 else 0) + |opts|
      && a[..2] == [Str("-jar"), Str(compilerPath)]
      && (forall i :: 0 <= i < n ==> a[2 + 2 * i] == Str("--js") && a[3 + 2 * i] == files[i])
      && (Truthy(dest) ==>
            a[2 + 2 * n] == Str("--js_output_file") && a[3 + 2 * n] == dest && a[4 + 2 * n..] == opts)
      && (!Truthy(dest) ==> a[2 + 2 * n..] == opts)
  {
    var n := |files|;
    var opts := OptionArgs(options);
    var tail := DestArgs(dest) + opts;
    var a := CommandLine(compilerPath, files, dest, options);
    Regroup(Prefix(compilerPath), SourceArgs(files), DestArgs(dest), opts);
    HeadLayout(compilerPath, files, tail);
    if Truthy(dest) {
      DestLayout(dest, opts);
      assert a[2 + 2 * n] == a[2 + 2 * n..][0];
      assert a[3 + 2 * n] == a[2 + 2 * n..][1];
      DropDrop(a, 2 + 2 * n, 2);
    }
  }

  /** After the source pairs: `--js_output_file <dest>`, then the options. */
  lemma DestLayout(dest: JsValue, opts: seq<JsValue>)
    requires Truthy(dest)
    ensures var tail := DestArgs(dest) + opts;
      && |tail| == 2 + |opts|
      && tail[0] == Str("--js_output_file") && tail[1] == dest && tail[2..] == opts
  {
    assert DestArgs(dest) == [Str("--js_output_file"), dest];
  }

  /** The prefix and the source pairs, whatever follows them. */
  lemma HeadLayout(compilerPath: string, files: seq<JsValue>, tail: seq<JsValue>)
    ensures var a := Prefix(compilerPath) + SourceArgs(files) + tail;
      var n := |files|;
      && |a| == 2 + 2 * n + |tail|
      && a[..2] == [Str("-jar"), Str(compilerPath)]
      && (forall i :: 0 <= i < n ==> a[2 + 2 * i] == Str("--js") && a[3 + 2 * i] == files[i])
      && a[2 + 2 * n..] == tail
  {
    var s := SourceArgs(files);
    var a := Prefix(compilerPath) + s + tail;
    SourceArgsLength(files);
    forall i | 0 <= i < |files|
      ensures a[2 + 2 * i] == Str("--js") && a[3 + 2 * i] == files[i]
    {
      SourceArgsAt(files, i);
      assert a[2 + 2 * i] == s[2 * i];
      assert a[3 + 2 * i] == s[2 * i + 1];
    }
  }

  /** A source that is not an array is compiled as the only source. */
  lemma SingleSource(src: JsValue)
    requires !src.Arr?
    ensures SourceArgs(ToArray(src)) == [Str("--js"), src]
  {
  }

  /**
   * Where each value of one option lands among its tokens: value `i` gives
   * `--<key>` at position `i` plus the number of string values before it;
   * a string value follows its flag, any other value leaves the flag bare.
   */
  lemma {:induction false} FlagArgsAt(key: string, values: seq<JsValue>, i: int)
    requires 0 <= i < |values|
    ensures var r := FlagArgs(key, values);
      var p := i + StringCount(values[..i]);
      && p < |r| && r[p] == Str("--" + key)
      && (values[i].Str? ==> p + 1 < |r| && r[p + 1] == values[i])
      && (!values[i].Str? ==> p + 1 == |r| || r[p + 1] == Str("--" + key))
    decreases |values|
  {
    var front := values[..|values| - 1];
    var r := FlagArgs(key, values);
    var rf := FlagArgs(key, front);
    FlagArgsLength(key, front);
    assert r[..|rf|] == rf;
    if i < |front| {
      assert values[..i] == front[..i];
      FlagArgsAt(key, front, i);
      var p := i + StringCount(values[..i]);
      assert r[p] == rf[p];
      if p + 1 < |rf| {
        assert r[p + 1] == rf[p + 1];
      } else {
        assert r[|rf|] == Str("--" + key);
      }
    } else {
      assert values[..i] == front;
    }
  }

  /** Every value of an option is a string: the tokens are `--<key> <value>` pairs, in order. */
  lemma AllStringValues(key: string, values: seq<JsValue>)
    requires forall i :: 0 <= i < |values| ==> values[i].Str?
    ensures var r := FlagArgs(key, values);
      && |r| == 2 * |values|
      && forall i :: 0 <= i < |values| ==> r[2 * i] == Str("--" + key) && r[2 * i + 1] == values[i]
  {
    AllStringsCount(values);
    FlagArgsLength(key, values);
    forall i | 0 <= i < |values|
      ensures FlagArgs(key, values)[2 * i] == Str("--" + key) && FlagArgs(key, values)[2 * i + 1] == values[i]
    {
      AllStringsCount(values[..i]);
      FlagArgsAt(key, values, i);
    }
  }

  /** No value of an option is a string: one bare `--<key>` per value. */
  lemma NoStringValues(key: string, values: seq<JsValue>)
    requires forall i :: 0 <= i < |values| ==> !values[i].Str?
    ensures FlagArgs(key, values) == seq(|values|, _ => Str("--" + key))
  {
    NoStringsCount(values);
    FlagArgsLength(key, values);
    forall i | 0 <= i < |values|
      ensures FlagArgs(key, values)[i] == Str("--" + key)
    {
      NoStringsCount(values[..i]);
      FlagArgsAt(key, values, i);
    }
  }

  lemma {:induction false} AllStringsCount(values: seq<JsValue>)
    requires forall i :: 0 <= i < |values| ==> values[i].Str?
    ensures StringCount(values) == |values|
    decreases |values|
  {
    if values != [] {
      AllStringsCount(values[..|values| - 1]);
    }
  }

  lemma {:induction false} NoStringsCount(values: seq<JsValue>)
    requires forall i :: 0 <= i < |values| ==> !values[i].Str?
    ensures StringCount(values) == 0
    decreases |values|
  {
    if values != [] {
      NoStringsCount(values[..|values| - 1]);
    }
  }

  /** The tokens of two runs of options are those of the first run, then those of the second. */
  lemma {:induction false} OptionArgsAppend(a: seq<Entry>, b: seq<Entry>)
    ensures OptionArgs(a + b) == OptionArgs(a) + OptionArgs(b)
    decreases |b|
  {
    if b == [] {
      AppendEmpty(a);
    } else {
      var front := b[..|b| - 1];
      AppendFront(a, b);
      OptionArgsAppend(a, front);
      Assoc(OptionArgs(a), OptionArgs(front), FlagArgs(b[|b| - 1].0, ToArray(b[|b| - 1].1)));
    }
  }

  /**
   * The tokens of option `i` sit between those of the options before it
   * and those of the options after it.
   */
  lemma OptionArgsAt(options: seq<Entry>, i: int)
    requires 0 <= i < |options|
    ensures OptionArgs(options) ==
      OptionArgs(options[..i]) + FlagArgs(options[i].0, ToArray(options[i].1)) + OptionArgs(options[i + 1..])
  {
    OptionArgsStep(options, i);
    OptionArgsAppend(options[..i + 1], options[i + 1..]);
    Split(options, i + 1);
  }


  /**
   * Every default key is an option, and the default keys come first in
   * their own order; every option key comes from the defaults or the
   * caller, and none is `__proto__`; no key appears twice.
   */
  lemma MergeKeepsDefaults(defaults: seq<Entry>, opts: JsValue)
    ensures var base := OwnEntries(Obj(defaults));
      var merged := MergeOptions(defaults, opts);
      && Unique(merged)
      && KeysPrefix(base, merged)
      && forall k :: HasKey(merged, k) <==>
           k != ProtoKey && (HasKey(defaults, k) || (Truthy(opts) && HasKey(OwnEntries(opts), k)))
  {
    var base := OwnEntries(Obj(defaults));
    var overlay := if Truthy(opts) then OwnEntries(opts) else [];
    OwnEntriesOfObject(defaults);
    AssignOntoEmpty(base);
    AssignUnique(base, overlay);
    AssignKeys(base, overlay);
  }

  /**
   * A caller's option replaces the default of the same key as a whole
   * value; keys the caller leaves out, and `__proto__`, keep their default.
   */
  lemma MergeCallerWins(defaults: seq<Entry>, opts: JsValue, k: string)
    ensures var overlay := if Truthy(opts) then OwnEntries(opts) else [];
      Get(MergeOptions(defaults, opts), k) ==
        if Get(overlay, k).Some? && k != ProtoKey then Get(overlay, k) else Get(OwnEntries(Obj(defaults)), k)
  {
    var base := OwnEntries(Obj(defaults));
    var overlay := if Truthy(opts) then OwnEntries(opts) else [];
    OwnEntriesOfObject(defaults);
    AssignOntoEmpty(base);
    AssignGet(base, overlay, k);
  }

  /** Falsy options leave exactly the defaults. */
  lemma MergeFalsyIsDefaults(defaults: seq<Entry>, opts: JsValue)
    requires !Truthy(opts)
    ensures MergeOptions(defaults, opts) == OwnEntries(Obj(defaults))
  {
    OwnEntriesOfObject(defaults);
    AssignOntoEmpty(OwnEntries(Obj(defaults)));
  }
}
