# Assembly state container, modelled in Dafny

This project models the application-state container of the root component
`Assembly` of a React web client (`src/Assembly.js`). The container holds:

- the translation dictionary,
- the alert queue,
- the current page,
- the menu state.

It offers the accessors that child components call:

- `alert` and `dismissAlert` maintain the alert queue;
- `set` and `fetch` write and read the object's own state along a dot-separated path;
- `translate` looks a dot-separated key up in the nested dictionary;
- `route` and `logout` select the home page, and the constructor calls `route`;
- `locale` is a constant.

Layout:

- `values.dfy` (module `Values`): the JavaScript values the state holds, as
  immutable trees. Plain objects are `Node`s over their own properties. The
  module also has property reads (`Get`) and JavaScript truthiness.
- `paths.dfy` (module `Paths`): `split` on `.` and its inverse `Join`, and
  the walks of `fetch` (`FetchPath`) and `set` (`SetPath`). It proves the
  split/join round trips and the set-then-fetch law.
- `alerts.dfy` (module `Alerts`): `indexOf` and the queue after a dismissal.
- `translation.dfy` (module `Translation`): the lookup `translate` performs,
  with its found / not-found / throws cases.
- `assembly.dfy` (module `AssemblyState`): the class `Assembly`. Its fields
  are `dictionary`, `alerts`, `currentPage` and `menu`, plus `extra` for own
  properties that `set` creates. Its methods are the accessors. `Fetch`,
  `Set` and `Translate` run the source's loops, with invariants that tie them
  to the functions above. Two client methods use only the contracts.

In `fetch`, a missing intermediate segment makes the next property read act
on `undefined`, which throws a TypeError, so `FetchPath` returns
`Err(TypeError)` there. Only a missing final segment gives `Ok(Undefined)`.

Semantics chosen for property access:

- A read on `undefined` or `null` throws a TypeError.
- A read on an object gives its own property, or `undefined` when the property is absent.
- A read on any other value gives `undefined`.
- A write needs a plain object. Class bodies are strict-mode code, so a write on a primitive throws a TypeError. The model also throws on a write to an array or a page component (see "## Left out").
- `translate` tests truthiness. An empty string, `false`, `null` or `undefined` counts as missing.

## Model

| member | source | states |
|---|---|---|
| `AssemblyState.Assembly.constructor` | src/Assembly.js:35-51 | a new container has the given dictionary, an empty alert queue, an empty menu, no extra properties, and the home page selected by `route()` |
| `AssemblyState.Assembly.Route` | src/Assembly.js:45-47 | after `route()` the current page is `Home`, whatever it was before; no other field changes |
| `AssemblyState.Assembly.Logout` | src/Assembly.js:109-112 | after `logout()` the current page is `Home`, whatever it was before; no other modelled field changes |
| `AssemblyState.Assembly.Locale` | src/Assembly.js:105-107 | the locale is always `"en"`; the function reads no state, so nothing can change it |
| `AssemblyState.Assembly.Alert` | src/Assembly.js:58 | the queue becomes the old queue with the message appended at the end; nothing is deduplicated and earlier entries are untouched |
| `AssemblyState.Assembly.DismissAlert` | src/Assembly.js:60-63 | the queue becomes `Dismissed(old queue, message)`, so the first occurrence is removed when present and the queue is unchanged otherwise; no other field changes |
| `Alerts.IndexOf` | src/Assembly.js:61 | the result is -1 exactly when the message is absent; otherwise it is an index holding the message with no earlier occurrence, so it is the least such index |
| `Alerts.Dismissed` | src/Assembly.js:60-63 | an absent message leaves the queue unchanged. A present message at least index `i` gives `s[..i] + s[i+1..]`. The multiset of messages loses exactly one copy of the message, and the length drops by one exactly when the message was present |
| `Alerts.DismissedAtFirst` | src/Assembly.js:61-62 | if `i` is the least index holding the message, dismissing removes exactly position `i`; later duplicates stay |
| `Alerts.AlertThenDismissFresh` | src/Assembly.js:58-63 | alerting a message that is not queued and then dismissing it restores the queue; in particular an empty queue becomes empty again |
| `Alerts.AlertThenDismissDuplicate` | src/Assembly.js:58-63 | if the message is already queued, alerting it again and dismissing once removes the older copy and keeps the new copy at the end |
| `Paths.Split` | src/Assembly.js:70 | `split(".")` yields at least one part, and no part contains the separator |
| `Paths.JoinSplit` | src/Assembly.js:70 | joining the parts of a split with the separator gives back the original string |
| `Paths.SplitJoin` | src/Assembly.js:70 | splitting the join of a non-empty list of separator-free parts gives back the parts, so a path string and its segment list determine each other |
| `Paths.FetchSnoc` | src/Assembly.js:80-86 | reading a path plus one key equals reading the path and then one property, and an error on the path propagates |
| `Paths.MissingFinalIsUndefined` | src/Assembly.js:84-85 | when the path up to the last segment reaches an object that lacks the final key, `fetch` yields `undefined` instead of throwing |
| `Paths.FetchAppend` | src/Assembly.js:80-86 | reading `path + rest` equals reading `path` and then `rest` from the value reached, and an error on `path` propagates |
| `Paths.MissingIntermediateThrows` | src/Assembly.js:84 | when a segment before the last is missing under an object, `fetch` throws a TypeError, because the next read acts on `undefined` |
| `Paths.SetPathOkIff` | src/Assembly.js:68-78 | `set` succeeds if and only if every intermediate segment leads to a plain object; otherwise it throws |
| `Paths.SetPathRoot` | src/Assembly.js:72-77 | a successful `set` starts from an object, and in that object only the first segment's property changes |
| `Paths.SetThenFetch` | src/Assembly.js:68-86 | after a successful `set(tag, v)`, `fetch(tag)` yields `v` |
| `Paths.SetLeavesOtherPaths` | src/Assembly.js:72-77 | a successful `set` leaves alone every path that leaves the written path at some segment. So only the final key under the last intermediate node changes |
| `AssemblyState.Assembly.Fetch` | src/Assembly.js:80-86 | the segment-by-segment loop returns exactly `FetchPath` of the object's own state along `split(".")` of the tag, and changes nothing |
| `AssemblyState.Assembly.Set` | src/Assembly.js:68-78 | the method succeeds exactly when every intermediate segment leads to an object. On success the new state is `SetPath` of the old one, and `fetch` of the same tag yields the value written. On failure it throws a TypeError and nothing changes. The alert queue and the current page never change |
| `Translation.TranslateFound` | src/Assembly.js:88-102 | when every word of the key leads to a truthy entry, `translate` returns the entry the whole key reaches, which is truthy |
| `Translation.TranslateNotFound` | src/Assembly.js:93-97 | when some word is absent or falsy (and the dictionary is not undefined/null), `translate` returns exactly `"Error! Translation not found."` |
| `Translation.TranslateThrowsIff` | src/Assembly.js:90-94 | `translate` throws if and only if the dictionary itself is undefined or null (and the key has a word) |
| `Translation.TranslateStopsAtFirstMissing` | src/Assembly.js:93-97 | once a word is missing, anything appended to the key does not change the answer: the lookup stops at the first missing word |
| `AssemblyState.Assembly.Translate` | src/Assembly.js:88-103 | the loop with early return computes `TranslatePath` of the dictionary and the key's words. It throws exactly when the dictionary is undefined/null. With all words present and truthy it returns the value at that path; otherwise it returns the sentinel. It has no `modifies` clause, so it changes no field |

## Left out

- `render` and the styled components: they are UI composition and CSS.
- MobX reactivity (`@observable`, `@action`, `@computed`, `Observer`): the fields are plain mutable state.
- `network.clearWatches()` in `logout` and the module-level `Network` object: they are calls into a network client; `Logout` treats the call as a no-op.
- The `console.log` diagnostic in `translate`: it is output only.
- `login()`: its body is empty.
- The `props.afterCreation` callback in the constructor: it is an external hook.
- The English dictionary from `./languages/en` is not part of this model; the constructor takes it as a parameter.
- JavaScript property-access quirks: a read on a string, boolean, array or page component gives `undefined`. So the model has no `length`, no array indices and no inherited or prototype names.
- The component's other own properties are not in the state that `set` and `fetch` walk. React sets `props`, `context`, `refs`, `updater` and `state`. The class itself defines the arrow-function fields `fetch` and `render` (src/Assembly.js:80, 114).
- Numbers are not among the modelled values: the state holds strings, booleans and objects.
- Object identity: the state is a tree of values, so aliasing and cycles are not modelled. In JavaScript, when an object on the path of `set` is reachable from itself, the write can cut the path, and a later `fetch` of the same tag then misses. `SetThenFetch` holds for tree-shaped state. `SetLeavesOtherPaths` holds for alias-free state: in JavaScript a write through one path is visible through every alias.
- `set` writes in place in JavaScript. The model rebuilds the state tree along the path with `SetPath`, after the source's walk has checked every intermediate segment.
- AssemblyState.Assembly.Set: a tag whose first segment is `alerts` or `currentPage` returns `UnmodelledWrite` and changes nothing. Those fields have typed models (a list of strings, a page), so they cannot hold an arbitrary value. In JavaScript such a `set` replaces or writes into them. `fetch` reads them as an array and a page.
- Paths.SetPath: a write onto an array or a page component throws a TypeError in the model. In JavaScript, arrays and functions are objects, so the assignment succeeds and adds the property. `AssemblyState.Assembly.Set` inherits this: for example, `set("menu.items.x", true)` after `set("menu.items", [])` fails in the model.
- AssemblyState.Assembly.Set: inherits the `Paths.SetPath` restriction above on writes to arrays and page components.
