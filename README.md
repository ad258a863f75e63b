# File-analyzer base class

A model of `file_analysis::Analyzer`, the base class every file content
analyzer (hashing, extraction, MIME sniffing, ...) derives from. An analyzer
is built from an `AnalyzerArgs` record and the file it is attached to. At
construction it fixes three private fields: its type tag, read from the
record's `tag` field; a counted reference to the record; and a non-owning
reference to the file. Its destructor gives the record reference back. Four
virtual delivery hooks receive file data in order (`DeliverStream`), at an
offset (`DeliverChunk`), the end of the file (`EndOfFile`) and gaps
(`Undelivered`). Each returns `true` to say "still valid, keep delivering".
The base-class defaults do nothing and return `true`.

Files:

- `values.dfy` (module `Values`): the record as the analyzer sees it. It has a
  map from field name to value (`Val`) and a reference count. `Ref` and
  `Unref` change only the count. A new record starts with one reference.
- `analyzer.dfy` (module `FileAnalysis`): the `Analyzer` class. Its `tag`,
  `args` and `file` are `const` fields, so they are set once by the
  constructor and never change, just as the private fields without setters
  do. A ghost flag `destroyed` stands for the C++ object having been deleted.
  `Live()` says the analyzer has not been destroyed and the record's count is
  positive; the destructor and the hooks need only that. `Valid()` adds that
  the stored tag still agrees with the record's tag field. The constructor
  establishes it, but no operation requires it: the record is shared and
  another holder may reassign its fields. The accessors need nothing, and
  their agreement with the record is stated under `Valid()`. The hooks are
  methods without a `modifies` clause, so the verifier guarantees that they
  change nothing. `AttachDeliverDetach` is a client that attaches one
  analyzer, delivers data, ends the file and detaches it.
- `lifetime.dfy` (module `Lifetime`): the reference count of one record over
  a history of analyzers constructed from it and destroyed. Each
  construction adds one reference and each destruction removes one. The
  lemmas show that the count equals the starting count plus the number of
  live holders. So a balanced history restores the count, and the count
  never reaches zero while an analyzer holds the record. `Replay` runs such a
  history on real `Analyzer` objects, through the constructor and
  `Destroy`, and proves that the record's count follows the abstract count
  and that every analyzer still alive is valid.

`ArgsTag` dereferences the looked-up field without checking it, so a record
without an enum `tag` field is a caller error. `ArgsTag` and the constructor
therefore require `HasTag`: the `tag` field is present and holds an enum
value.

## Model

| member | source | states |
|---|---|---|
| `Values.RecordVal.Ref` | src/file_analysis/Analyzer.h:111 | returns the record itself, with its count one higher and its fields unchanged |
| `Values.Unref` | src/file_analysis/Analyzer.h:28 | lowers the count of a referenced record by exactly one and leaves its fields unchanged |
| `FileAnalysis.Analyzer.constructor` | src/file_analysis/Analyzer.h:109-113 | requires a record with an enum tag field on which the caller holds a reference; establishes the invariant; `Tag()` equals `ArgsTag` of the given record; `Args()` and `GetFile()` are the given record and file; the record's count is one higher and its fields are unchanged |
| `FileAnalysis.Analyzer.Destroy` | src/file_analysis/Analyzer.h:25-29 | needs only a live analyzer (not tag agreement); releases exactly one reference on the stored record, leaves its fields unchanged, and ends the instance's life, so it cannot be destroyed twice |
| `FileAnalysis.Analyzer.DeliverChunk` | src/file_analysis/Analyzer.h:39-40 | returns `true` for every chunk, offset and length, including zero; the analyzer stays live, and with no `modifies` clause nothing changes |
| `FileAnalysis.Analyzer.DeliverStream` | src/file_analysis/Analyzer.h:49-50 | returns `true` for every span, including an empty one; the analyzer stays live and nothing changes |
| `FileAnalysis.Analyzer.EndOfFile` | src/file_analysis/Analyzer.h:59-60 | returns `true`; the analyzer stays live and nothing changes |
| `FileAnalysis.Analyzer.Undelivered` | src/file_analysis/Analyzer.h:70-71 | returns `true` for every gap; the analyzer stays live and nothing changes |
| `FileAnalysis.Analyzer.Tag` | src/file_analysis/Analyzer.h:76 | answers on any analyzer; the result is the tag read from the record at construction (the constructor proves `Tag() == ArgsTag(argArgs)`), and while the record's tag field is not reassigned (`Valid()`) it equals `ArgsTag` of the record, the enum value in its tag field |
| `FileAnalysis.Analyzer.Args` | src/file_analysis/Analyzer.h:81 | answers on any analyzer; the result is the record given at construction (constructor: `Args() == argArgs`), and while its tag field is not reassigned (`Valid()`) it carries the analyzer's tag and has a positive count |
| `FileAnalysis.Analyzer.GetFile` | src/file_analysis/Analyzer.h:86 | returns the `const` file field, which the constructor proves is the file given at construction (`GetFile() == argFile`); reads no mutable state |
| `FileAnalysis.Analyzer.ArgsTag` | src/file_analysis/Analyzer.h:94-99 | for a record whose tag field holds an enum, the result is that enum's value; reads only the record |
| `FileAnalysis.ArgsTagReadsOnlyTagField` | src/file_analysis/Analyzer.h:94-99 | two records give the same tag exactly when their tag fields are equal, whatever their counts and other fields |
| `FileAnalysis.AttachDeliverDetach` | src/file_analysis/Analyzer.h:25-113 | construction, default delivery, end of file and destruction leave the record's count and fields as they were |
| `FileAnalysis.DestroyAfterTagReassigned` | src/file_analysis/Analyzer.h:25-29 | after another holder reassigns the shared record's tag field, `Tag()` and `Args()` still answer, `Tag()` is still the tag read at construction and no longer matches the record, end of file is still accepted, and destruction still releases the reference, restoring the count |
| `Lifetime.RefcountTracksHolders` | src/file_analysis/Analyzer.h:25-113 | along any well-formed history, the count changes by exactly the change in the number of live analyzers |
| `Lifetime.ConstructDestroyBalanced` | src/file_analysis/Analyzer.h:25-113 | a history in which every constructed analyzer is destroyed leaves the count where it started |
| `Lifetime.HeldRecordStaysReferenced` | src/file_analysis/Analyzer.h:25-113 | at every point of a well-formed history, the count is at least the number of live analyzers, so it is positive while any analyzer holds the record |
| `Lifetime.Replay` | src/file_analysis/Analyzer.h:25-113 | starting from a record the caller holds a reference on, constructing and destroying real analyzers along a well-formed history leaves the record's count at `RefcountAfter` of the history and its fields unchanged; the analyzers left alive are exactly the history's holders, distinct, all valid and holding the record |
| `Lifetime.DestroyedOnlyOnce` | src/file_analysis/Analyzer.h:25-29 | destroying an analyzer that is not alive, including one already destroyed, makes the history ill-formed |

## Left out

- `AnalyzerInstantiator` (Analyzer.h:122-123) is only a function-pointer type. No instantiator and no tag-to-instantiator registry is part of this model. A Dafny function cannot allocate an object, so the type is not declared. The construction contract it relies on is the constructor's.
- Concrete analyzer subclasses and virtual dispatch: only the base-class default hooks are modelled.
- The debug log line in the destructor (Analyzer.h:27): it is diagnostic output only.
- The real `Val`/`RecordVal` machinery (`Lookup`, `FieldOffset`, `AsEnum`, `AsRecordVal`, the generated `BifType`/`BifEnum` types). The record is a field map plus a counter. The `tag` enum is its integer value, and the range of the C++ enum is not modelled.
- Deleting a record whose count drops to zero: `Unref` only decrements. The constructor, like `Unref`, requires the caller to hold a reference (count at least one), so no analyzer is built on a record whose last reference is gone.
- The internals of `file_analysis::File`. It is only forward-declared, so the model treats it as an identity.
- The contents of the data buffers: the default hooks never read them.
- Thread safety of the reference count: concurrency is not modelled.
