# Linebreak object core, modelled in Dafny

This project models the core of `linebreak.c` from the Linebreak library,
an implementation of the Unicode line breaking algorithm (UAX #14). It covers
four things:

- **The lifecycle of a line breaking object** (`lifecycle.dfy`). The object
  is built with the `initlbobj` defaults (`linebreak_new`). References are
  counted (`linebreak_incref`, `linebreak_destroy`). The object can be
  deep-copied with full rollback on allocation failure (`linebreak_copy`) and
  returned to state NONE (`linebreak_reset`).
  - The object is a `class` whose fields the operations update in place.
  - Its five owned buffers are arrays: the class override map, the newline
    string, bufstr, bufspc and unread.
  - The host environment is a ghost `Host` value threaded through every
    operation. It holds the set of storage currently allocated and the log
    of calls made to the host's reference callback (`ref_func`).
  - The contracts state exactly what is allocated and released, which
    callbacks are issued, with which pointer, which slot and which delta, and
    in which order.
  - The callbacks an object issues are given by the reference definition
    `LineBreak.RefCalls`. `RefCallsOncePerSlot` characterises it completely.
- **The break-action lookup** (`rules.dfy`). `linebreak_lbrule` reads the
  pair table of section 7 of UAX #14. It falls back to DIRECT outside the
  table and in unspecified cells.
- **Class resolution** (`classes.dfy`). `linebreak_lbclass` resolves SA
  (South East Asian) following rule LB1 of section 6.1 of UAX #14. Thai is
  kept as SA only when the external word segmenter is built in.
- **Sizing** (`gcstring.dfy`, `sizing.dfy`). `linebreak_strsize` measures a
  grapheme cluster string appended to a line, either unbounded or under a
  column budget.
  - The bounded scan is a `while` loop over the clusters of the space run
    followed by the appended string.
  - It is proved equal to an independent specification, `FitChars`. That is
    the number of characters of the longest cluster prefix of the appended
    string that keeps the line within the budget.
  - Separate lemmas prove that `FitChars` is the longest such prefix, that it
    stays within range, and how it behaves in the all-fits and the
    spaces-overflow cases.
  - `FitChars` and `FitCount` are the reference definitions here. `FitCount`'s
    own contract, with `FitCountUnique` and `FitCountMaximal`, characterises
    them.

`destroy` releases the map, newline, bufstr and unread buffers and the object
itself, but not bufspc. The model does the same: `Destroy` states that the
bufspc storage stays allocated. `CopyThenDestroy` shows that copying an
object and destroying the copy leaves exactly the copy's bufspc storage
allocated. The library's own description of destroy says the object's owned
buffers are freed; the model follows the code.

## Model

| member | source | states |
|---|---|---|
| Rules.LbRule | linebreak/lib/linebreak.c:245-257 | The result is never PROP_UNKNOWN. It is DIRECT exactly when the pair lies outside the table, or its cell is unspecified or holds DIRECT. Any other result is the table cell `[before][after]`. |
| Rules.LbRuleIsAction | linebreak/lib/linebreak.c:245-257 | For a table holding only actions and gaps, every pair of class indices, negative or too large ones included, yields one of MANDATORY, DIRECT, INDIRECT or PROHIBITED. |
| Rules.LbRuleReadsCell | linebreak/lib/linebreak.c:249-253 | Inside the table, a specified cell is returned as it is, indexed before-then-after. |
| Classes.LbClass | linebreak/lib/linebreak.c:267-279 | Only SA is rewritten, and only to CM or AL. A rewritten SA becomes CM exactly when its grapheme role is Extend or SpacingMark. SA survives exactly for Thai with the segmenter built in. |
| Classes.LbClassIdempotent | linebreak/lib/linebreak.c:272-277 | Resolving an already resolved class again changes nothing. |
| Sizing.FitCount | linebreak/lib/linebreak.c:330-349 | The number of clusters the scan accepts. It is at most the number of clusters, every accepted prefix fits in `max`, and the next prefix does not. |
| Sizing.FitCountUnique | linebreak/lib/linebreak.c:330-349 | Any count with the "all fit, next one overflows" property is the one FitCount returns. |
| Sizing.FitCountMaximal | linebreak/lib/linebreak.c:304-307 | Every prefix longer than the accepted one exceeds `max`. |
| Sizing.FitCountOverfull | linebreak/lib/linebreak.c:337-346 | A line already past `max` accepts no cluster. |
| Sizing.FitCharsRange | linebreak/lib/linebreak.c:304-307 | The bounded result is at most the length of the appended string. |
| Sizing.FitCharsAllFit | linebreak/lib/linebreak.c:350-351 | When the whole space run and string fit, the result is the full length of the string. |
| Sizing.FitCharsSpaceOverflow | linebreak/lib/linebreak.c:337-343 | When the space run alone overflows, the result is 0. |
| Sizing.FitCharsLongest | linebreak/lib/linebreak.c:304-307 | The result counts at least the characters of any cluster prefix that fits, and the prefix it counts fits. |
| Sizing.ScanStopInSpace | linebreak/lib/linebreak.c:337-343 | A stop inside the space run has counted no more characters than the space run has, and nothing of the string fits. |
| Sizing.ScanFitsInString | linebreak/lib/linebreak.c:330-349 | Fitting prefixes of spaces-then-string that reach into the string are the space run plus a fitting prefix of the string. |
| Sizing.ScanStopInString | linebreak/lib/linebreak.c:337-345 | A stop past the space run has counted exactly the space run's characters plus the bounded result, so subtracting the space run's length yields it. |
| Sizing.ScanComplete | linebreak/lib/linebreak.c:330-351 | A scan that never stops has accepted the whole appended string. |
| Sizing.StrSize | linebreak/lib/linebreak.c:309-352 | Covers all cases. With both inputs blank, `len` when unbounded and 0 under a budget. A failed concatenation gives -1. Unbounded, `len` plus the columns of spaces-then-string. Under a budget, FitChars, which lies between 0 and the string's length. |
| Lifecycle.Duplicate | linebreak/lib/linebreak.c:111-119 | A fresh allocation holding the same length and contents, added to the allocated storage. |
| Lifecycle.CopyBuf | linebreak/lib/linebreak.c:101-160 | One step of the deep copy. It allocates exactly when the source buffer holds something. If that allocation is the failing one, it releases everything the earlier steps made. Otherwise it yields a fresh copy with equal contents and advances the allocation count. |
| Lifecycle.LineBreak.constructor | linebreak/lib/linebreak.c:26-51 | Every field has its initlbobj default: refcount 1, state NONE, empty buffers, colmax 998, every host pointer and callback null. |
| Lifecycle.LineBreak.New | linebreak/lib/linebreak.c:59-67 | On allocation failure, null and nothing allocated. Otherwise a fresh object with the defaults, and that object is the only storage added. |
| Lifecycle.LineBreak.Incref | linebreak/lib/linebreak.c:75-79 | The same object is returned with one more reference and stays valid. |
| Lifecycle.LineBreak.RefCallsFromSlots | linebreak/lib/linebreak.c:162-173 | Every callback issued for a list of slots is for a listed slot whose pointer is set, and passes that pointer. |
| Lifecycle.LineBreak.RefCallsFromCovers | linebreak/lib/linebreak.c:162-173 | Every listed slot whose pointer is set gets a callback. |
| Lifecycle.LineBreak.RefCallsFromOrdered | linebreak/lib/linebreak.c:162-173 | Slots listed in callback order give callbacks in that order. |
| Lifecycle.LineBreak.RefCallsOncePerSlot | linebreak/lib/linebreak.c:198-209 | Callbacks are issued exactly for the set host pointers, and only when ref_func is set. There is at most one per slot, in the order stash, format, sizing, urgent, user, each with its own pointer and the given delta. |
| Lifecycle.LineBreak.RefCallsUnfold | linebreak/lib/linebreak.c:162-173 | With ref_func set, the callbacks are those of the five slots concatenated in source order. |
| Lifecycle.LineBreak.RefCallsAgree | linebreak/lib/linebreak.c:162-173 | Objects with the same host pointers and callbacks issue the same callbacks. |
| Lifecycle.LineBreak.Clone | linebreak/lib/linebreak.c:99 | The memcpy plus the refcount reset of line 174. The new object is valid, has refcount 1, duplicates the original's settings and buffers, and owns exactly the buffers it was given. |
| Lifecycle.LineBreak.CopyFromBufstr | linebreak/lib/linebreak.c:122-160 | The bufstr, bufspc and unread steps. Success exactly when no failing allocation falls among them, with fresh, pairwise disjoint copies. On failure, everything made earlier is released. |
| Lifecycle.LineBreak.CopyFromNewline | linebreak/lib/linebreak.c:111-160 | The same, starting at the newline step. |
| Lifecycle.LineBreak.CopyBuffers | linebreak/lib/linebreak.c:101-160 | The five buffer steps, numbered 1 to 5. Success exactly when the failing allocation lies beyond the ones the object needs, with fresh, disjoint copies added to the allocated storage. On failure, the allocated storage is what it was. |
| Lifecycle.LineBreak.Copy | linebreak/lib/linebreak.c:91-176 | Fails exactly when one of the copy's allocations fails. A failed copy leaves storage and the callback log unchanged. A successful one is a fresh, valid deep copy with refcount 1, and adds only its own storage. It appends exactly the +1 callbacks of the original's set pointers, in slot order. |
| Lifecycle.LineBreak.Destroy | linebreak/lib/linebreak.c:188-211 | A null object is a no-op. Otherwise the count drops by one, and while it stays positive nothing else happens and the object stays valid. At zero, the object, map, newline, bufstr and unread are released and the -1 callbacks are logged. The bufspc storage stays allocated. |
| Lifecycle.LineBreak.Reset | linebreak/lib/linebreak.c:220-235 | A null object is a no-op. Otherwise unread, bufstr and bufspc become empty and their storage is released, bufcols becomes 0 and state becomes NONE. No other field may change. |
| Lifecycle.RetainThenRelease | linebreak/lib/linebreak.c:75-79 | incref followed by destroy restores the count and releases nothing. |
| Lifecycle.CopyThenDestroy | linebreak/lib/linebreak.c:188-211 | Destroying a fresh copy issues the +1 and then the -1 callbacks of the original. What stays allocated is exactly the returned copy's bufspc storage: fresh, and one block when the original's bufspc holds something. A failed copy changes nothing. |
| Lifecycle.ReleaseCopy | linebreak/lib/linebreak.c:188-211 | Dropping the only reference to an object leaves its count at 0. Of the object and its storage only bufspc stays allocated, and the object's -1 callbacks are logged. |

## Left out

- `linebreak_eawidth` is a single call into the external property lookup with nothing to prove about it. It is not part of this model.
- `linebreak_charprop` and the rule table `linebreak_rules` are external. The first is the function parameter `charprop` of `LbClass`, bound to one object; the second is the `RuleTable` value given to `LbRule`.
- The numeric values of the property constants live in `linebreak.h`, which is not part of this model. The constants in `props.dfy` are placeholders, and no proof depends on their values, only on their being distinct.
- The library comment on `linebreak_lbclass` says XX and SG are resolved to AL. The code only resolves SA, and the model follows the code.
- Column counts (`len`, `bufcols`, `colmax`, `colmin`) are doubles in the source and integers here. Rounding is not modelled.
- Sizing.StrSize: its `pre` and `obj` parameters are never read by the code, so they are dropped.
- Sizing.StrSize: gcstring segmentation, `gcstring_columns`, `gcstring_copy` and `gcstring_concat` are modelled on cluster sequences. Concatenation is plain concatenation of the two cluster sequences. `gcstring_concat`'s re-segmentation where the space run meets the string is not modelled, for example a combining mark at the start of the string merging with the last space. A concatenation failure is the input flag `concatFails`. The unchecked failure of `gcstring_copy` is not modelled.
- Sizing.StrSize: requires `str` to be non-null whenever the space run is not blank. In that case the code passes a null `str` to the foreign `gcstring_concat`, and a bounded scan that runs to completion reads `str->len` (line 351). Neither is modelled.
- Sizing.StrSize: the `max < 0` clamp is dead code, because `max` is unsigned, and is not modelled.
- Lifecycle: `malloc` and `free` are additions to and removals from the ghost set `Host.live`. An allocation failure is an input: `mallocFails` for `New`, or `failAt`, the number of the first failing allocation of a copy. Storage is not reused.
- Lifecycle: each `ref_func` call is an entry appended to the ghost log `Host.refLog`. What the host does with it is not modelled.
- Lifecycle.LineBreak.Copy: the source allocates the object first (allocation 0) and fills it in step by step. The model numbers the allocations the same way but assembles the object (`Clone`) only after its buffers are duplicated. Aliasing between the half-built object and its buffers is therefore not modelled.
- Lifecycle.LineBreak.Copy: user data and callback pointers are opaque host values (`HostPtr`). Only their identity is copied, as in the source.
- Lifecycle.LineBreak.Destroy: the reference count is a `nat`, and `Valid` requires it to be at least 1. Unsigned wrap-around on destroying an object whose count is already 0 is not modelled.
- Lifecycle.LineBreak.Incref: unsigned wrap-around of the reference count is not modelled.
- The driver (`linebreak_break*`), the callbacks it invokes and the setters of the object's fields live outside `linebreak.c` and are not part of this model.
