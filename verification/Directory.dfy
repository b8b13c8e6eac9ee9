/** Queue file names, `<id>.log`, and the scans of a queue directory that look for the first, the
    last and the next file. A scan gets the entries in whatever order readdir has them. */
module Directory {
  import opened Options
  import opened Decimal
  import opened Framing

  /** The contents of the files by id. */
  type Contents = map<nat, seq<Byte>>

  function Put(files: Contents, id: nat, bytes: seq<Byte>): Contents {
    files[id := bytes]
  }

  /** A queue directory: what the operating system holds, which outlives the process. */
  class FileSystem {
    var files: Contents

    constructor ()
      ensures files == map[]
    {
      files := map[];
    }
  }

  const EXTENSION := ".log"

  /** The id a directory entry stands for, if it is a queue file. */
  function IdOf(name: string): (r: Option<nat>)
    ensures r.Some? ==> r.value <= ULLONG_MAX
  {
    var i := DigitRun(name);
    if i > 0 && i + 4 == |name| && name[i..] == EXTENSION then Some(StrToULL(name)) else None
  }

  ghost function Ids(names: seq<string>): set<nat> {
    set i | 0 <= i < |names| && IdOf(names[i]).Some? :: IdOf(names[i]).value
  }

  function FileName(id: nat): string {
    Digits(id) + EXTENSION
  }

  /** The name that the writer gives file `id` is read back as `id`, for every 64 bit id. */
  lemma FileNameRoundTrip(id: nat)
    ensures IdOf(FileName(id)) == Some(id) <==> id <= ULLONG_MAX
  {
    StrToULLDigits(id, EXTENSION);
    DigitRunOf(Digits(id), EXTENSION);
    assert FileName(id)[|Digits(id)|..] == EXTENSION;
  }

  /** extract_id. */
  method ExtractId(fn: string) returns (found: bool, id: nat)
    ensures found <==> IdOf(fn).Some?
    ensures found ==> id == IdOf(fn).value
  {
    var l := |fn|;
    var i := 0;
    while i < l && IsDigit(fn[i])
      invariant 0 <= i <= l
      invariant AllDigits(fn[..i])
    {
      i := i + 1;
    }
    DigitRunOf(fn[..i], fn[i..]);
    assert fn[..i] + fn[i..] == fn;
    if i > 0 && i + 4 == l && fn[i..] == EXTENSION {
      return true, StrToULL(fn);
    }
    return false, 0;
  }

  lemma IdsSnoc(names: seq<string>, i: nat)
    requires i < |names|
    ensures Ids(names[..i + 1]) ==
            Ids(names[..i]) + if IdOf(names[i]).Some? then {IdOf(names[i]).value} else {}
  {
    var a, b := names[..i], names[..i + 1];
    assert forall k :: 0 <= k < i ==> a[k] == b[k];
    assert forall id :: id in Ids(b) ==> id in Ids(a) || (IdOf(names[i]).Some? && id == IdOf(names[i]).value);
    assert b[i] == names[i];
  }

  /** find_last_id: where a writer resumes. */
  method FindLastId(names: seq<string>) returns (last: nat)
    ensures forall id :: id in Ids(names) ==> id <= last
    ensures if Ids(names) == {} then last == 0 else last in Ids(names)
  {
    last := 0;
    var i := 0;
    while i < |names|
      invariant 0 <= i <= |names|
      invariant forall id :: id in Ids(names[..i]) ==> id <= last
      invariant if Ids(names[..i]) == {} then last == 0 else last in Ids(names[..i])
    {
      IdsSnoc(names, i);
      var found, id := ExtractId(names[i]);
      if found && id > last {
        last := id;
      }
      i := i + 1;
    }
    assert names[..i] == names;
  }

  /** find_first_id: where a reader without a checkpoint begins. */
  method FindFirstId(names: seq<string>) returns (first: nat)
    ensures forall id :: id in Ids(names) ==> first <= id
    ensures if forall id :: id in Ids(names) ==> id == ULLONG_MAX then first == 0 else first in Ids(names)
  {
    var least := ULLONG_MAX;
    var i := 0;
    while i < |names|
      invariant 0 <= i <= |names|
      invariant forall id :: id in Ids(names[..i]) ==> least <= id
      invariant least == ULLONG_MAX || least in Ids(names[..i])
    {
      IdsSnoc(names, i);
      var found, id := ExtractId(names[i]);
      if found && id < least {
        least := id;
      }
      i := i + 1;
    }
    assert names[..i] == names;
    first := if least == ULLONG_MAX then 0 else least;
  }

  /** hs_find_next_id: the smallest id above `start`, or 0. A file numbered ULLONG_MAX is the one
      that the scan cannot see. */
  method FindNextId(names: seq<string>, start: nat) returns (next: nat)
    ensures next == 0 <==> !exists id :: id in Ids(names) && start < id < ULLONG_MAX
    ensures next != 0 ==> next in Ids(names) && start < next < ULLONG_MAX
    ensures next != 0 ==> forall id :: id in Ids(names) && start < id ==> next <= id
  {
    var least := ULLONG_MAX;
    var i := 0;
    while i < |names|
      invariant 0 <= i <= |names|
      invariant least <= ULLONG_MAX
      invariant forall id :: id in Ids(names[..i]) && start < id ==> least <= id
      invariant least == ULLONG_MAX || (least in Ids(names[..i]) && start < least)
    {
      IdsSnoc(names, i);
      var found, id := ExtractId(names[i]);
      if found && id > start && id < least {
        least := id;
      }
      i := i + 1;
    }
    assert names[..i] == names;
    next := if least == ULLONG_MAX then 0 else least;
  }
}
