# node-gcc: the `compile` planner, modelled in Dafny

node-gcc wraps the Google Closure Compiler for Node.js. Its only entry
point, `compile(src, dest, opts, callback)` in `lib/gcc.js`, does the
following:

- it resolves which of the optional trailing arguments were given;
- it stops when the compiled code would go nowhere;
- otherwise it builds the command line
  `java -jar <compiler.jar> [--js <file>]* [--js_output_file <dest>] [--<key> [<value>]]*`;
- it launches the compiler and pipes its output into `dest`;
- when a callback is given, it calls `callback(error, stdout, stderr)` at exit.

The model covers everything `compile` decides, plus what the callback receives.

- `js_values.dfy`:
  - `Wrappers.Option`.
  - The JavaScript values the wrapper inspects (`JsValues.JsValue`). A function value records whether its class is `Function` (`plain`); async, generator and async generator functions are not plain.
  - `typeof` and truthiness.
- `js_objects.dfy` (`JsObjects`) models plain objects as ordered lists of own properties, in the order `Object.keys` lists them:
  - `Put` is `obj[key] = value`: an existing key keeps its place, a new key goes last. Writing `__proto__` runs the prototype setter and creates no own property, so `Put` leaves the list unchanged for that key.
  - `Assign` is a run of such writes.
  - `Get` is `obj[key]`.
  - `OwnEntries` gives the own properties of any value, as `Object.keys` lists them under ECMAScript 2015. An object literal that writes a key twice keeps it where it was first written. An array has one key per element. A string has one key per character of the model, each a Unicode scalar value (see "## Left out").
- `gcc.dfy` (`Gcc`) covers:
  - `isFunction` and `toArray`;
  - the argument resolution and the no-op rule;
  - the command line, as specification functions plus the methods that build it by repeated appends the way the source does (`PushSources`, `ExtendOptions`, `PushOptions`/`PushFlags`);
  - `Compile`, which returns a `Plan`: either `NoOp`, or a `Spawn` holding the executable, the argument vector, the output file and the exit handler.
- `gcc_streams.dfy` (`GccStreams`) covers the `data` and `exit` handlers:
  - the chunks of both streams are collected in order;
  - exit code 0 maps to no error; any other code (or none, after a signal) maps to an error carrying the collected standard error and the code.
- `seqs.dfy` (`Sequences`) holds general facts about joining and slicing sequences that the proofs use.
- `scenarios.dfy` (`Scenarios`) works out whole invocations on concrete arguments.

The executable (`exports.java`), the compiler archive path and the default options (`exports.defaults`) are read by `compile` from module state. Here they are the parameter `Gcc.Config`. `Gcc.StockConfig` holds the values the module starts with.

## Model

| member | source | states |
|---|---|---|
| JsValues.TypeOf | lib/gcc.js:56 | `typeof` is "string" exactly for strings, "function" exactly for functions, "object" exactly for null, arrays and objects |
| JsValues.Truthy | lib/gcc.js:67 | a value is truthy exactly when it is not one of the falsy values `undefined`, `null`, `false`, `0` and `""` |
| JsObjects.IndexOf | lib/gcc.js:85 | the position of the first property with the key, -1 exactly when the key is absent |
| JsObjects.Get | lib/gcc.js:85 | reading a key gives nothing exactly when no write names it, and otherwise a value written to it |
| JsObjects.PutKeys | lib/gcc.js:85 | `obj[k] = v` keeps every key in place, adds `k` last only when missing, changes no other key, and leaves `(k, v)` in the object; for `k = "__proto__"` it changes nothing |
| JsObjects.PutUnique | lib/gcc.js:85 | `obj[k] = v` never makes a key occur twice |
| JsObjects.PutNew | lib/gcc.js:89 | writing a missing key appends it, unless the key is `__proto__` |
| JsObjects.PutExisting | lib/gcc.js:89 | writing a present key replaces its value where it stands, unless the key is `__proto__` |
| JsObjects.PutGet | lib/gcc.js:89 | after `obj[k] = v`, `obj[k]` reads `v` and every other key reads as before; a write to `__proto__` changes no own property |
| JsObjects.AssignKeys | lib/gcc.js:84-91 | copying keys onto an object keeps its keys first and in order; the keys afterwards are exactly those of the object and those copied, `__proto__` excepted |
| JsObjects.AssignUnique | lib/gcc.js:84-91 | copying keys onto an object with distinct keys keeps them distinct |
| JsObjects.AssignGet | lib/gcc.js:87-91 | after copying, a key other than `__proto__` reads the copied value when the source has it, else its old value |
| JsObjects.AssignOntoEmpty | lib/gcc.js:84-86 | copying a list with distinct keys and no `__proto__` key onto an empty object rebuilds that list, order included |
| JsObjects.GetAt | lib/gcc.js:85 | in a list without repeated keys each key reads back its own value |
| JsObjects.OwnEntriesOfObject | lib/gcc.js:84 | the keys `Object.keys` lists for an object are distinct and are exactly the keys it writes other than `__proto__` |
| Gcc.IsFunction | lib/gcc.js:26-28 | `isFunction` holds only for values `typeof` reports as "function", which are truthy; among those it holds exactly for plain functions (class `Function`), not for async or generator functions |
| Gcc.ToArrayIdempotent | lib/gcc.js:37-39 | `toArray` returns an array's elements as they are and wraps any other value in a one-element list, so applying it to its own result changes nothing |
| Gcc.Launches | lib/gcc.js:67-69 | a compiler is launched exactly when the resolved destination is truthy or the resolved callback is a plain function (`typeof` "function" and class `Function`) |
| Gcc.Resolve | lib/gcc.js:56-64 | the resolved destination is a string or `false`, a string destination is never moved, the options are never a function, and the callback is one of the arguments given |
| Gcc.ResolveWithDest | lib/gcc.js:56-64 | with a string destination: a value in `opts` that passes `isFunction` becomes the callback and `opts` becomes `false`; otherwise nothing moves |
| Gcc.ResolveWithoutDest | lib/gcc.js:56-64 | with a non-string destination the arguments shift left and `dest` becomes `false`; a value shifted into `opts` that passes `isFunction` then becomes the callback |
| Gcc.ShiftIgnoresFourth | lib/gcc.js:56-60 | once `dest` is not a string the fourth argument has no effect |
| Gcc.LaunchesIff | lib/gcc.js:56-69 | a compiler is launched exactly when the destination is a non-empty string or a value passing `isFunction` was passed in the callback (or shifted) position |
| Gcc.SourceArgsLength | lib/gcc.js:72-75 | two tokens per source |
| Gcc.SourceArgsAt | lib/gcc.js:72-75 | source `i` gives `--js` at position `2i` and itself at `2i + 1` |
| Gcc.SingleSource | lib/gcc.js:37-39 | a source that is not an array is compiled as the only source |
| Gcc.FlagArgsLength | lib/gcc.js:96-101 | one `--<key>` per value of an option plus one token per string value |
| Gcc.FlagArgsAt | lib/gcc.js:96-101 | value `i` of an option gives `--<key>` after the tokens of the values before it, followed by the value exactly when it is a string |
| Gcc.AllStringValues | lib/gcc.js:96-101 | string values give `--<key> <value>` pairs, in order |
| Gcc.NoStringValues | lib/gcc.js:96-101 | values that are not strings (such as `true`) give one bare `--<key>` each |
| Gcc.OptionArgsAppend | lib/gcc.js:95-102 | the tokens of two runs of options are those of the first run, then those of the second |
| Gcc.OptionArgsAt | lib/gcc.js:95-102 | the tokens of option `i` sit between those of the options before it and those after it |
| Gcc.CommandLineLayout | lib/gcc.js:53-103 | the command line is `-jar <archive>`, then one `--js` pair per source in order, then `--js_output_file <dest>` exactly when the destination is truthy, then the option tokens |
| Gcc.MergeKeepsDefaults | lib/gcc.js:84-91 | the merged options hold every default key, the default keys first in their order, no key twice, never `__proto__`, and only keys of the defaults or of the caller's options |
| Gcc.MergeCallerWins | lib/gcc.js:84-91 | a key the caller gives, other than `__proto__`, takes the caller's value whole (arrays are not merged); any other key keeps its default |
| Gcc.MergeFalsyIsDefaults | lib/gcc.js:87 | falsy options leave exactly the defaults |
| Gcc.PushSources | lib/gcc.js:72-75 | appending the sources one by one yields the `--js` pairs of `toArray(src)` after what was there |
| Gcc.ExtendOptions | lib/gcc.js:83-91 | filling a fresh object key by key from the defaults, then from truthy options, yields the merged options |
| Gcc.PushOptions | lib/gcc.js:93-103 | appending option by option yields the tokens of every option, in key order |
| Gcc.PushFlags | lib/gcc.js:96-101 | appending value by value yields the tokens of one option |
| Gcc.Compile | lib/gcc.js:51-125 | nothing is launched exactly when the resolved destination is falsy and the resolved callback fails `isFunction`; otherwise the launch runs the configured executable with the full command line, writes to the destination exactly when it is truthy, and has an exit handler exactly when the callback passes `isFunction` |
| GccStreams.ExitError | lib/gcc.js:137-142 | no error exactly for exit code 0; otherwise the error's message is the collected standard error and its code the exit code |
| GccStreams.Capture | lib/gcc.js:126-145 | running the handlers over the events yields one callback call per exit, each with the error for its code and the texts collected before it |
| GccStreams.TextAppend | lib/gcc.js:129-134 | the collected texts of two runs of events are those of the first run followed by those of the second |
| GccStreams.ChunkText | lib/gcc.js:129-134 | a chunk adds its text to its own stream only |
| GccStreams.InvocationsCount | lib/gcc.js:137-145 | the callback is called once per exit event and never otherwise |
| GccStreams.ExitAfterData | lib/gcc.js:126-145 | when all data arrives before the one exit, the callback is called exactly once, with the mapped error and every chunk of each stream in order |
| Scenarios.BuildIntoFile | lib/gcc.js:51-103 | `compile(["a.js", "b.js"], "out.js", cb)` resolves to that file and callback and builds the documented command line |
| Scenarios.DefaultOptionArgs | lib/gcc.js:14-17 | the default options alone give `--compilation_level SIMPLE_OPTIMIZATIONS` |
| Scenarios.CallerOptionsMerge | lib/gcc.js:84-91 | caller options over the defaults replace `compilation_level` in its place and add the caller's other keys after it, in the caller's order |
| Scenarios.CallerOptionArgs | lib/gcc.js:95-102 | those merged options give a pair per array element, a pair for a string and a bare flag for `true` |
| Scenarios.CleanExit | lib/gcc.js:137-144 | exit code 0 after output: one call, no error, the output as standard output |
| Scenarios.FailedExit | lib/gcc.js:137-144 | exit code 2 after error text: one call, with an error built from that text and the code |
| Scenarios.AsyncCallbackIgnored | lib/gcc.js:56-69 | an async function fails `isFunction`: `compile(src, asyncFn)` launches nothing, and `compile(src, "out.js", asyncFn)` launches with the function left in `opts`, so it adds no option and is never called |
| Scenarios.ProtoOptionDropped | lib/gcc.js:84-91 | caller options whose only key is `__proto__` leave exactly the defaults, so no `--__proto__` token is ever built |
| Scenarios.NothingToDo | lib/gcc.js:66-69 | `compile(src)` and `compile(src, "")` launch nothing |

## Left out

- Launching the process (`child.spawn`), `setEncoding`, the write stream for `dest`, piping into it and closing it at exit: these are operating-system I/O. `Gcc.Compile` returns them as a `Plan` value: the executable, the arguments, the output file and the exit handler.
- The rethrow of a write-stream error with a non-zero `errno`: it is an asynchronous error handler with nothing to state beyond "throw".
- The order of `data` and `exit` events is decided by the event loop. `GccStreams.Capture` takes the events as a given sequence, and `GccStreams.ExitAfterData` states the case where every chunk arrives before the exit.
- `path.normalize`/`path.join` for the compiler archive: the resulting path is the parameter `compilerPath`.
- `{}.toString.call` in `isFunction` becomes the test `Func? && plain` on `JsValue`. Other callables whose class tag is not `Function` (bound or proxied exotic objects, a custom `Symbol.toStringTag`) are not modelled beyond that flag.
- JsObjects.Put: a write to `__proto__` changes the object's prototype in JavaScript; the model keeps only the fact that it creates no own property. `JsObjects.OwnEntries` also lists no `__proto__` key for an object, whereas `JSON.parse` can create an own `__proto__` property; in `compile` that key is dropped by the assignments at lib/gcc.js:85 and 89 either way, so the planned command line is the same.
- JsObjects.OwnEntries: three differences from `Object.keys` and `forEach` are not modelled.
  - A string's keys: JavaScript gives one key per UTF-16 code unit, so a character outside the Basic Multilingual Plane gives two keys, one per surrogate. The model gives one key per Unicode scalar value.
  - Primitive options: the model follows ECMAScript 2015 and later, where `Object.keys` of `true` or `5` is empty and that of a string lists its indices. On ECMAScript 5 engines `Object.keys` throws a TypeError for any primitive at lib/gcc.js:88.
  - Sparse arrays: `forEach` and `Object.keys` skip the holes of a sparse array (lib/gcc.js:72, 88, 96). `JsValue` has no way to write a hole.
- `Object.keys` lists integer-like keys first, in ascending order. `JsObjects.OwnEntries` keeps every key in insertion order, so option names that are array indices are not ordered as JavaScript orders them.
- Numbers are integers: fractions, NaN and `-0` play no part in the wrapper's decisions beyond truthiness.
- `exports.defaults` replaced by something that is not an object: `Gcc.Config` holds the defaults as an object's property list.
- What `compile` returns: the code returns nothing in every case, so the model gives no return value besides the `Plan`.
- Properties on an object's prototype chain, getters and non-enumerable properties are not modelled; `Object.keys` sees own enumerable properties only.
