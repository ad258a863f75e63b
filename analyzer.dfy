/**
 * The base class of file analyzers: the object every content analyzer
 * (hashing, extraction, ...) derives from. It fixes a type tag, a counted
 * reference to its `AnalyzerArgs` record and a non-owning reference to the
 * file it is attached to, and supplies default delivery hooks that accept
 * everything and do nothing.
 */
module FileAnalysis {
  import opened Values

  /** An unsigned byte of file content. */
  newtype Byte = x: int | 0 <= x < 0x100

  /** An unsigned 64-bit length or offset. */
  newtype Uint64 = x: int | 0 <= x < 0x1_0000_0000_0000_0000

  /** The analyzer type enum, represented by the enum's integer value. */
  newtype FaTag = int

  /** The record carries an enum value under its tag field, which `ArgsTag` reads without checking. */
  predicate HasTag(args: RecordVal)
    reads args`fields
  {
    TagField in args.fields && args.fields[TagField].EnumVal?
  }

  /** The file an analyzer is attached to; only its identity matters here. */
  class File {
    constructor ()
    {
    }
  }

  class Analyzer {
    const tag: FaTag
    const args: RecordVal
    const file: File
    /** Stands for the C++ object having been deleted. */
    ghost var destroyed: bool

    /**
     * The analyzer has not been destroyed, and the reference it holds keeps
     * the record's count positive. This is all the destructor and the
     * default hooks rely on.
     */
    ghost predicate Live()
      reads this, args
    {
      !destroyed && args.refcount >= 1
    }

    /**
     * A live analyzer whose stored tag still agrees with its record's tag
     * field. The record is shared and its fields may be reassigned by other
     * holders, so no operation requires this; it is what the constructor
     * establishes and what the accessors' agreement with the record rests on.
     */
    ghost predicate Valid()
      reads this, args
    {
      Live() && HasTag(args) && tag == ArgsTag(args)
    }

    /**
     * Derives the tag from the record, takes one reference on the record
     * and stores the file back-reference; nothing else happens.
     */
    constructor (argArgs: RecordVal, argFile: File)
      requires HasTag(argArgs) && argArgs.refcount >= 1
      modifies argArgs`refcount
      ensures Valid()
      ensures Tag() == ArgsTag(argArgs)
      ensures Args() == argArgs && GetFile() == argFile
      ensures argArgs.refcount == old(argArgs.refcount) + 1
      ensures argArgs.fields == old(argArgs.fields)
    {
      tag := ArgsTag(argArgs);
      var held := argArgs.Ref();
      args := held;
      file := argFile;
      destroyed := false;
    }

    /** The destructor: releases the one reference the constructor took. */
    method Destroy()
      requires Live()
      modifies this`destroyed, args`refcount
      ensures destroyed
      ensures args.refcount == old(args.refcount) - 1
      ensures args.fields == old(args.fields)
    {
      Unref(args);
      destroyed := true;
    }

    /** Default out-of-order delivery: accepts any chunk, even an empty one, and stays live. */
    method DeliverChunk(data: seq<Byte>, len: Uint64, offset: Uint64) returns (keepGoing: bool)
      requires Live()
      requires |data| == len as int
      ensures keepGoing && Live()
    {
      keepGoing := true;
    }

    /** Default sequential delivery: accepts any span, even an empty one, and stays live. */
    method DeliverStream(data: seq<Byte>, len: Uint64) returns (keepGoing: bool)
      requires Live()
      requires |data| == len as int
      ensures keepGoing && Live()
    {
      keepGoing := true;
    }

    /** Default end-of-file handling: nothing to finalize, stays live. */
    method EndOfFile() returns (keepGoing: bool)
      requires Live()
      ensures keepGoing && Live()
    {
      keepGoing := true;
    }

    /** Default gap handling: a missing span does not invalidate the analyzer. */
    method Undelivered(offset: Uint64, len: Uint64) returns (keepGoing: bool)
      requires Live()
      ensures keepGoing && Live()
    {
      keepGoing := true;
    }

    /**
     * The analyzer type read from the record at construction. It agrees with
     * the record's tag field as long as nobody reassigns that field.
     */
    function Tag(): (t: FaTag)
      reads this, args
      ensures Valid() ==> t == ArgsTag(args) && args.fields[TagField] == EnumVal(t as int)
    {
      tag
    }

    /**
     * The record held by the analyzer. While nobody reassigns its tag field it
     * carries the analyzer's tag, and the analyzer's reference keeps it alive.
     */
    function Args(): (r: RecordVal)
      reads this, args
      ensures Valid() ==> HasTag(r) && ArgsTag(r) == Tag() && r.refcount >= 1
    {
      args
    }

    /** The file the analyzer is attached to, fixed for the analyzer's lifetime. */
    function GetFile(): (f: File)
      ensures f == file
    {
      file
    }

    /** The analyzer type named by a record's tag field. */
    static function ArgsTag(args: RecordVal): (t: FaTag)
      reads args`fields
      requires HasTag(args)
      ensures args.fields[TagField] == EnumVal(t as int)
    {
      args.fields[TagField].ordinal as FaTag
    }
  }

  /** `ArgsTag` looks at the tag field only: the reference count and every other field are irrelevant. */
  lemma ArgsTagReadsOnlyTagField(a: RecordVal, b: RecordVal)
    requires HasTag(a) && HasTag(b)
    ensures Analyzer.ArgsTag(a) == Analyzer.ArgsTag(b) <==> a.fields[TagField] == b.fields[TagField]
  {
  }

  /**
   * The collaborator's sequence for one analyzer: attach, deliver, end of
   * file, detach. The record comes out with the count it went in with.
   */
  method AttachDeliverDetach(args: RecordVal, file: File, data: seq<Byte>)
    requires HasTag(args) && args.refcount >= 1
    requires |data| < 0x1_0000_0000_0000_0000
    modifies args`refcount
    ensures args.refcount == old(args.refcount)
    ensures args.fields == old(args.fields)
  {
    var a := new Analyzer(args, file);
    assert a.Tag() == Analyzer.ArgsTag(args);
    var more := a.DeliverStream(data, |data| as Uint64);
    if more {
      more := a.EndOfFile();
    }
    a.Destroy();
  }

  /**
   * The record is shared, so its tag field may be reassigned while an
   * analyzer holds it. The accessors, the hooks and the destructor still
   * run; `Tag()` still answers the tag read at construction, which no longer
   * matches the record, and the reference is still released.
   */
  method DestroyAfterTagReassigned(args: RecordVal, file: File) returns (t: FaTag)
    requires HasTag(args) && args.refcount >= 1
    modifies args
    ensures old(args.fields[TagField]) == EnumVal(t as int)
    ensures TagField in args.fields && args.fields[TagField] != EnumVal(t as int)
    ensures args.refcount == old(args.refcount)
  {
    var a := new Analyzer(args, file);
    var t0 := a.Tag();
    args.fields := args.fields[TagField := EnumVal(args.fields[TagField].ordinal + 1)];
    t := a.Tag();
    assert t == t0;
    var held := a.Args();
    assert held == args;
    var more := a.EndOfFile();
    a.Destroy();
  }
}
