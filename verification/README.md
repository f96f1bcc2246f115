# var_dump in Dafny

A model of var_dump.js, a browser port of PHP's `var_dump`. It models the
text each argument is dumped to and proves properties of that text.

The JavaScript values the dumper meets are modelled as a `Value` datatype:
booleans, numbers, bigints, strings, symbols, functions, `null`, object
references and `undefined`. Objects and arrays live in a heap of `Node`s,
and a heap object may refer back to itself. An object node records:

- its constructor's name;
- its own keys, in `Object.keys` order, each with the outcome of reading it (a value, or a throw);
- whether `hasOwnProperty` is a function;
- whether it is the `window` object;
- whether it is an HTML element, and if so its `nodeName`.

The dumper threads a `Session`, which pairs the output buffer (the
`StringBuilder`) with the stack of objects being dumped, through:

- `dump_value`, `dump_object`, `dump_array` and `dump_function` (module `Dump`);
- `get_indentation`;
- `var_dump`'s loop over its arguments (module `Driver`).

Module `Parameters` models how `dump_function` reads the parameter list out
of a function's source text:

- the slice between the first `(` and the first `)`;
- the split on `,`;
- the `=` / `...` classification;
- the trimmed name;
- the assignment into the `parameters` object.

Module `Render` gives an independent, declarative definition of the dump of
each value. `Render.ValueIsRender` proves that the stateful dumper appends
exactly that text and hands back the stack it was given. Module `Layout`
states the shape of every kind of dump in terms of that definition. Module
`Readback` reads a primitive's text back, which shows that no two
modelled primitives print alike. A symbol is modelled by its description
alone, so two distinct symbols with the same description are one value here.

`Strings` holds the JavaScript string operations the code uses, each with
its own contract:

- `indexOf`, `slice`, `split`, `trim`, `repeat`;
- the UTF-16 `length`;
- decimal integer text.

Module `Examples` and module `ParameterExamples` work through concrete dumps.

The code and some descriptions of var_dump disagree on two points. The
model follows the code:

- A function whose parameter list is empty still gets a `[parameters]`
  entry. `"".split(",")` is `[""]`, so the code's `args.length > 0` test
  always holds, and the list holds one key `""` marked `<required>`. This is
  stated by `Layout.NoParameterStillListed`.
- The parameters object is a plain `{}`, so its header reads
  `object(Object) (k) {`.

## Model

| member | source | states |
|---|---|---|
| Values.AppendExtends | var_dump.js:28-31 | `append` keeps what was written, adds exactly the text after it, and leaves the stack alone |
| Values.AppendLineIsTwoAppends | var_dump.js:33-40 | `appendLine(text)` appends the text and then one newline |
| Values.NewlineIsEmptyLine | var_dump.js:35-39 | `appendLine()` with no argument appends only the newline, as `appendLine("")` does |
| Values.TypeOf | var_dump.js:58-79 | `typeof` of a value; dump_value prints a value directly exactly when its type is neither `function` nor `object` |
| Values.Push | var_dump.js:154 | `stack.push` leaves the output alone, puts the object last on the stack, and a pop undoes it |
| Values.Pop | var_dump.js:173 | `stack.pop` leaves the output alone, removes exactly the last object, and changes nothing on an empty stack |
| Values.PushShrinks | var_dump.js:154 | pushing an object that is not yet on the stack strictly shrinks the set of unvisited heap objects, which is why dumping a cyclic structure ends |
| Dump.Indentation | var_dump.js:198-200 | get_indentation(n) is n times as long as the indentation unit; that it is n copies of the unit is `Strings.RepeatCopies` |
| Dump.PrimitiveShape | var_dump.js:60-78 | the text of a primitive: booleans, numbers, bigints and strings print as their `typeof` name followed by `(`; every primitive text except a string's and `undefined` ends with `)`; `undefined` prints as its own type name. That the text determines the value is Readback.PrimitiveRoundTrip |
| Dump.StringTextShape | var_dump.js:66 | a string prints as `string(`, then the decimal text of its UTF-16 length, then `) "`, then the text itself, unescaped, then `"` |
| Dump.ObjectName | var_dump.js:155 | the header name is never empty; it is the constructor's name when that is a non-empty string, and otherwise `@anonymous` |
| Dump.DisplayName | var_dump.js:90 | the function's name is never empty; it is the function's own name when that is non-empty, and otherwise `(anonymous)` |
| Dump.DumpValue | var_dump.js:57-80 | dumping any value only appends to the buffer and leaves the stack as it found it |
| Dump.DumpObject | var_dump.js:128-175 | dump_object only appends and restores the stack after its push |
| Dump.DumpArray | var_dump.js:177-196 | dump_array only appends and restores the stack after its push |
| Dump.DumpElements | var_dump.js:188-192 | the array loop only appends and leaves the stack unchanged |
| Dump.DumpEntries | var_dump.js:162-171 | the property loop only appends and leaves the stack unchanged, thrown reads included |
| Dump.DumpFunction | var_dump.js:82-126 | dump_function only appends and leaves the stack unchanged |
| Render.ValueIsRender | var_dump.js:57-80 | for every heap, value, buffer and stack, dump_value appends exactly the declarative rendering of the value for that stack, and returns the same stack |
| Render.ObjectIsRender | var_dump.js:128-175 | dump_object appends exactly the declarative rendering of the object and restores the stack |
| Render.OrdinaryIsRender | var_dump.js:154-174 | an ordinary object that is not on the stack is pushed, printed with its header and property lines, popped and closed, as rendered |
| Render.ArrayIsRender | var_dump.js:177-196 | dump_array appends exactly the declarative rendering of the array and restores the stack |
| Render.ElementsIsRender | var_dump.js:188-192 | the array loop from index i appends the concatenation of the rendered element lines i.. |
| Render.ElementIsLine | var_dump.js:189-191 | one turn of the array loop appends exactly that element's rendered line |
| Render.EntriesIsRender | var_dump.js:162-171 | the property loop from key i appends the concatenation of the rendered property lines i.. |
| Render.EntryIsLine | var_dump.js:164-169 | one turn of the property loop appends exactly that key's rendered line |
| Render.FunctionIsRender | var_dump.js:82-126 | dump_function appends exactly the rendered function block and leaves the stack |
| Render.ElementLines | var_dump.js:188-192 | there is one rendered line per array element |
| Render.EntryLines | var_dump.js:163-170 | there is one rendered line per own key |
| Layout.TerminalCases | var_dump.js:128-152 | the checks run in source order: an object already on the stack prints `*RECURSION*` even when it is the window or an element; `null` prints `NULL`; the window prints `object(window)` unless window dumps are allowed; an element prints `HTMLElement(<nodeName>)`. None of these changes the stack |
| Layout.ArrayLayout | var_dump.js:183-195 | an array not on the stack prints `array(<length>) {`, a newline, one line per element with the array pushed, and the closing brace at the array's own indentation |
| Layout.ElementLineLayout | var_dump.js:189-191 | element i's line is the inner indentation, `[i] => `, the element's dump one level deeper, and a newline |
| Layout.ObjectLayout | var_dump.js:154-174 | an ordinary object prints `object(<name>) (<number of keys>) {`, then a line per key only when hasOwnProperty is a function, then the closing brace. The header counts every key either way |
| Layout.EntryLineLayout | var_dump.js:164-169 | a key's line is the inner indentation, `["key"] => `, and then either the value's dump and a newline or, when the read throws, nothing more |
| Layout.FailingReadKeepsPrefix | var_dump.js:164-169 | a throwing read leaves its `["key"] => ` prefix in the buffer, and the loop carries on with the next key |
| Layout.RedumpIdentical | var_dump.js:154-174 | dumping the same value twice in a row from the same stack appends the same text twice and restores the stack both times |
| Layout.FunctionLayout | var_dump.js:90-125 | a function prints `function {`, its `[name]` (or `(anonymous)`) as a string dump, its `[parameters]` object one level deeper, and a closing brace at the function's indentation |
| Layout.ParametersAsObject | var_dump.js:102-121 | the parameters text is what dump_object prints for the parameters object placed in a fresh heap cell, and the stack is unchanged |
| Layout.ParameterLinesAreEntries | var_dump.js:162-171 | the parameter lines are exactly the property lines of the parameters object |
| Layout.NoParameterStillListed | var_dump.js:84-121 | when the text between the brackets is blank, `[parameters]` still lists a single key `""` marked `<required>` |
| Layout.PlainParametersText | var_dump.js:154-174 | with no `constructor` or `hasOwnProperty` parameter, the parameters object prints `object(Object) (k) {`, its k lines and the closing brace |
| Layout.ParameterLineText | var_dump.js:166-168 | each parameter line is `["name"] => string(10) "<tag>"` at the inner indentation |
| Layout.TagLength | var_dump.js:106-114 | both tags are ten UTF-16 units long |
| Parameters.ParameterText | var_dump.js:87 | when `(` comes before `)`, the parameter text is exactly what lies between the first `(` and the first `)` |
| Parameters.ParameterTextCases | var_dump.js:87 | the remaining cases of `slice(indexOf('(') + 1, indexOf(')'))`: `)` before `(` gives the empty text, no `(` gives everything before `)`, and no `)` gives the text after `(` minus the last character |
| Parameters.ParameterTextBetween | var_dump.js:87 | for a source `head(text)tail` with no brackets in head or text, the parameter text is text |
| Parameters.Tokens | var_dump.js:87 | there is at least one token, and joining the tokens with `,` gives the parameter text back |
| Parameters.Classify | var_dump.js:104-118 | a token is optional exactly when it holds `=` or `...`, and the resulting name holds no `=` and is already trimmed |
| Parameters.ClassifyName | var_dump.js:109-118 | `=` takes priority: the name is the trimmed text before the first `=`; otherwise the trimmed text after the first `...`; otherwise the trimmed token |
| Parameters.Put | var_dump.js:118 | assigning to an existing key keeps the key order, and a new key goes last |
| Parameters.PutLookup | var_dump.js:118 | after assigning, the key holds the new tag and every other key keeps its old one |
| Parameters.PutDistinct | var_dump.js:118 | assigning keeps the keys distinct |
| Parameters.Assign | var_dump.js:118 | the object keeps distinct keys whatever is assigned, `__proto__` included |
| Parameters.Collect | var_dump.js:102-119 | the parameters object has distinct keys in first-assignment order, and each key holds the tag of its last assignment, so a later duplicate overwrites |
| Parameters.KeyInLookup | var_dump.js:118 | a name is a key exactly when a lookup finds it |
| Parameters.LookupAt | var_dump.js:118 | with distinct keys, looking up the i-th key gives the i-th tag |
| Parameters.CollectAt | var_dump.js:104-119 | the i-th key is the i-th distinct name, and it holds that name's last tag |
| Parameters.Classified | var_dump.js:104-116 | there is one classified parameter per token |
| Parameters.BlankParameterText | var_dump.js:84-119 | blank text between the brackets yields one parameter: `""`, required |
| Parameters.BlankText | var_dump.js:87-119 | splitting, classifying and assigning blank text gives the single required `""` |
| Parameters.ParametersNode | var_dump.js:102-118 | the parameters object has one key per parameter. Its constructor is `Object` unless a parameter is named `constructor`, and hasOwnProperty is a function unless a parameter is named `hasOwnProperty` |
| Strings.Repeat | var_dump.js:199 | `repeat(k)` has k times the unit's length |
| Strings.RepeatAdd | var_dump.js:198-200 | a + b repeats are a repeats followed by b repeats |
| Strings.RepeatCopies | var_dump.js:199 | `repeat(k)` is k copies of the unit: its i-th block of unit length is the unit |
| Strings.IntText | var_dump.js:63 | an integer's decimal text is non-empty, starts with `-` exactly when the integer is negative, is otherwise digits only, and has no leading zero |
| Strings.NatTextRoundTrip | var_dump.js:63 | reading the decimal text of a natural number gives the number back |
| Strings.IntTextRoundTrip | var_dump.js:63 | reading the decimal text of an integer, sign included, gives the integer back |
| Strings.IndexOf | var_dump.js:87 | indexOf finds the first occurrence of the character, or -1 exactly when it is absent |
| Strings.Find | var_dump.js:113 | `indexOf('...')` is the first position where `...` occurs, or -1 when it occurs nowhere |
| Strings.Slice | var_dump.js:87 | `slice` with in-range, crossed and negative end arguments |
| Strings.Split | var_dump.js:87 | split gives at least one piece, no piece holds the separator, and joining the pieces restores the text |
| Strings.SplitJoin | var_dump.js:87 | splitting the join of separator-free pieces gives the pieces back |
| Strings.SplitFirst | var_dump.js:111 | `split('=')[0]` is the text before the first `=`, or the whole text when there is none |
| Strings.Trim | var_dump.js:118 | a trimmed text neither starts nor ends with white space |
| Strings.TrimSlice | var_dump.js:118 | the trimmed text is a slice of the original with only white space cut off either end |
| Strings.TrimIdempotent | var_dump.js:118 | trimming twice is trimming once |
| Strings.TrimAllSpace | var_dump.js:118 | a blank text trims to `""` |
| Strings.Utf16Length | var_dump.js:66 | the UTF-16 length lies between the character count and twice the character count |
| Strings.TakeUnitsOfLength | var_dump.js:66 | taking Utf16Length(s) code units from s followed by any text gives s back, so the length field counts exactly the string's own units |
| Readback.PrimitiveRoundTrip | var_dump.js:60-78 | every primitive's text (boolean, number, bigint, string, symbol, undefined) reads back as the same value |
| Readback.PrimitiveInjective | var_dump.js:60-78 | two primitives with the same text are the same value |
| Readback.ReadStringOf | var_dump.js:66 | a string dump's length field is followed by exactly the quoted text, so it reads back whatever quotes the text holds |
| Driver.VarDump | var_dump.js:42-52 | var_dump logs one line per argument, in order, and each line is that argument's rendering from an empty stack at depth 0 |
| Driver.DumpArgument | var_dump.js:44-50 | one argument's line is its rendering from a fresh buffer and an empty stack |
| Driver.ArgumentsIndependent | var_dump.js:44-49 | a fresh session's dump equals the rendering from the empty stack, and the stack ends empty |
| Examples.ArrayOfTwo | var_dump.js:183-195 | `[1, 2]` dumps as `array(2) {`, `    [0] => number(1)`, `    [1] => number(2)`, `}` |
| Examples.SelfContainingArray | var_dump.js:178-190 | an array that contains itself dumps as `array(1) {`, `    [0] => *RECURSION*`, `}` |
| Examples.AddFunction | var_dump.js:82-126 | `function add(a, b = 1) { ... }` dumps with name `add` and parameters `a` required and `b` optional |
| Examples.TwoParameterText | var_dump.js:121 | the parameters object for `a` required and `b` optional, at any depth |
| ParameterExamples.ClassifyDefault | var_dump.js:109-118 | ` b = 1` is the optional parameter `b` |
| ParameterExamples.ClassifyRest | var_dump.js:113-118 | `...rest` is the optional parameter `rest` |
| ParameterExamples.ClassifyRestWithDefault | var_dump.js:109-118 | `...xs = []` is the optional parameter `...xs`, because the `=` test comes first and its name keeps the dots |
| ParameterExamples.CollectDuplicate | var_dump.js:118 | two parameters with the same name leave one key holding the later tag |
| ParameterExamples.AddTokens | var_dump.js:87 | the source of `add` splits into the tokens `a` and ` b = 1` |
| ParameterExamples.AddParameters | var_dump.js:87-119 | the source of `add` yields `a` required and `b` optional |

## Left out

- The console: `console.log` of each line and the `window.var_dump` wrapper are I/O. `Driver.VarDump` returns the lines instead of logging them.
- StringBuilder's `length` and `clear` are not used by the dump logic. Its `toString` at var_dump.js:50 is reading the session's `out`, as `Driver.DumpArgument` does.
- Numbers are modelled as integers. The JavaScript text of fractions, exponents, `NaN`, `Infinity` and `-0` is not modelled.
- A symbol is modelled by its description. Its text is taken to be `Symbol(<description>)`, the form `Symbol.prototype.toString` gives.
- The regular expression that strips comments from the function source is not modelled. The source text is taken as already free of comments.
- `is_html_element` and the `window` identity test depend on the host environment. They are modelled as tags on the object node: an element's `nodeName`, and the window flag.
- `Object.keys` ordering (integer-like keys first) is not computed. A heap node's entries are taken to be in `Object.keys` order already.
- Parameters.ParametersNode: the parameters object's keys are listed in first-assignment order, not in `Object.keys` order. The two differ only when a parameter name is an array index. `function f(a = [0, 1, 2]) {}` splits into `a = [0`, ` 1` and ` 2]`, and JavaScript lists `"1"` before `"a"`, where the model lists `"a"`, `"1"`, `"2]"`.
- Only the read of a property's value may throw. A throw from a nested dump, from an array element read, or from reading `constructor`, `name` or `hasOwnProperty` is not modelled.
- Layout.RedumpIdentical and Driver.ArgumentsIndependent: getters are taken to be pure. Each property read has one fixed outcome and changes nothing. A getter that returns a fresh value each time (`Date.now()`) makes a second dump differ. A getter that alters another argument's object makes a later argument's line depend on an earlier one. Neither is modelled.
- Readback.PrimitiveInjective: holds for modelled primitives only. In JavaScript, two calls to `Symbol("a")` give distinct values that both print `Symbol(a)`, and `Symbol()` and `Symbol("")` both print `Symbol()`.
- The `default` branch of dump_value is modelled only for `undefined`.
- The `parameters` object is not allocated in the heap during `Dump.DumpFunction`. It is fresh, so the recursion check cannot match it and nothing it holds looks at the stack, and its push and pop are not threaded. `Layout.ParametersAsObject` proves its text equals dump_object's output for that object placed in a fresh heap cell.
- Setting a parameter named `__proto__` assigns a string to the prototype, which JavaScript ignores. `Parameters.Assign` models that; other inherited setters are not modelled.
- Strings are sequences of code points. A lone surrogate cannot be represented, so `Strings.Utf16Length` counts two units exactly for code points above U+FFFF.
- Strings.Trim: its contract states only that the result has no white space at either end. The fact that it is the original with white space cut from both ends is stated separately by `Strings.TrimSlice`.
- Dump.DumpValue: its own contract states only that output is appended and the stack restored. The exact text is stated by `Render.ValueIsRender`.
