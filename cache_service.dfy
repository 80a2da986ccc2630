/** `CacheService` (Stocks/Network/Cache/CacheServiceType.swift): a byte store keyed by
    file name inside one cache directory. The directory is a map from file name to contents;
    two fault conditions of the file system are kept beside it so that failing reads and
    writes can be expressed: files that exist but cannot be read, and a directory that
    refuses writes. */
module Cache {
  import opened Wrappers
  import opened Model
  import opened AppErrors

  /** The directory as a value. */
  datatype Store = Store(files: map<string, Bytes>, unreadable: set<string>, readOnly: bool)

  /** `save(_:as:)` on a directory value: the new directory and the error thrown, if any.
      An atomic write either replaces the whole entry or changes nothing. */
  function SaveTo(s: Store, data: Bytes, name: string): (r: (Store, Option<Thrown>))
  {
    if s.readOnly then (s, Some(CocoaError(FileWriteNoPermission)))
    else (s.(files := s.files[name := data], unreadable := s.unreadable - {name}), None)
  }

  /** `load(_:)` on a directory value. */
  function LoadFrom(s: Store, name: string): (r: Result<Bytes, Thrown>)
  {
    if name !in s.files then Failure(CocoaError(FileReadNoSuchFile))
    else if name in s.unreadable then Failure(CocoaError(FileReadNoPermission))
    else Success(s.files[name])
  }

  /** `exists(_:)` on a directory value: a probe that cannot fail. */
  predicate ExistsIn(s: Store, name: string) {
    name in s.files
  }

  /** After a successful save, a load of the same name returns exactly the saved bytes. */
  lemma SaveThenLoad(s: Store, data: Bytes, name: string)
    requires !s.readOnly
    ensures SaveTo(s, data, name).1 == None
    ensures LoadFrom(SaveTo(s, data, name).0, name) == Success(data)
  {
  }

  lemma SaveThenExists(s: Store, data: Bytes, name: string)
    requires !s.readOnly
    ensures ExistsIn(SaveTo(s, data, name).0, name)
  {
  }

  /** A save replaces a previous entry wholesale: the old contents leave no trace. */
  lemma SaveReplaces(s: Store, old1: Bytes, old2: Bytes, data: Bytes, name: string)
    requires !s.readOnly
    ensures SaveTo(s.(files := s.files[name := old1]), data, name).0
         == SaveTo(s.(files := s.files[name := old2]), data, name).0
  {
  }

  /** A save, failed or not, leaves every other file as it was. */
  lemma SaveKeepsOthers(s: Store, data: Bytes, name: string, other: string)
    requires other != name
    ensures LoadFrom(SaveTo(s, data, name).0, other) == LoadFrom(s, other)
    ensures ExistsIn(SaveTo(s, data, name).0, other) == ExistsIn(s, other)
  {
  }

  /** A refused save throws and changes nothing. */
  lemma FailedSaveChangesNothing(s: Store, data: Bytes, name: string)
    requires s.readOnly
    ensures SaveTo(s, data, name) == (s, Some(CocoaError(FileWriteNoPermission)))
  {
  }

  /** Loading a name that is absent throws. */
  lemma LoadAbsentFails(s: Store, name: string)
    requires !ExistsIn(s, name)
    ensures LoadFrom(s, name).Failure?
  {
  }

  class CacheService {
    var files: map<string, Bytes>
    var unreadable: set<string>
    var readOnly: bool

    function Snapshot(): Store
      reads this
    {
      Store(files, unreadable, readOnly)
    }

    /** The service over a cache directory in the given state. */
    constructor (files: map<string, Bytes>, unreadable: set<string>, readOnly: bool)
      ensures Snapshot() == Store(files, unreadable, readOnly)
    {
      this.files := files;
      this.unreadable := unreadable;
      this.readOnly := readOnly;
    }

    method Save(data: Bytes, filename: string) returns (error: Option<Thrown>)
      modifies this
      ensures (Snapshot(), error) == SaveTo(old(Snapshot()), data, filename)
      ensures readOnly == old(readOnly)
      ensures error.None? <==> !readOnly
      ensures error.None? ==> files == old(files)[filename := data]
      ensures error.Some? ==> files == old(files) && unreadable == old(unreadable)
    {
      if readOnly {
        error := Some(CocoaError(FileWriteNoPermission));
      } else {
        files := files[filename := data];
        unreadable := unreadable - {filename};
        error := None;
      }
    }

    method Load(filename: string) returns (r: Result<Bytes, Thrown>)
      ensures r == LoadFrom(Snapshot(), filename)
      ensures r.Success? <==> filename in files && filename !in unreadable
      ensures r.Success? ==> r.value == files[filename]
    {
      if filename !in files {
        r := Failure(CocoaError(FileReadNoSuchFile));
      } else if filename in unreadable {
        r := Failure(CocoaError(FileReadNoPermission));
      } else {
        r := Success(files[filename]);
      }
    }

    method Exists(filename: string) returns (b: bool)
      ensures b == ExistsIn(Snapshot(), filename)
      ensures b <==> filename in files
    {
      b := filename in files;
    }
  }
}
