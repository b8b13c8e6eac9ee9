/** `hs_input`: the read handle of one queue with its buffer, refining the reader of module Reader. */
module Input {
  import opened Options
  import opened Framing
  import opened Queue
  import opened Reader
  import opened Directory
  import Decimal

  /** How many bytes a read should bring: the rest of a message whose header is there, or else what makes a whole
      buffer of this size. */
  function Wanted(r: Reader, size: nat): int {
    match ScanFrame(r.window)
    case NeedBody(msglen) => Need(r.window, msglen)
    case _ => size - |r.window|
  }

  /** With that many bytes more the message is complete. */
  lemma RestCompletes(w: seq<Byte>, more: seq<Byte>)
    requires ScanFrame(w).NeedBody? ==> |w| >= 2
    ensures ScanFrame(w).NeedBody? && |more| >= Need(w, ScanFrame(w).msglen) ==> ScanFrame(w + more).Found?
  {
    if ScanFrame(w).NeedBody? {
      var all := w + more;
      assert all[0] == w[0] && all[1] == w[1] && all[2] == w[2] && all[2 + w[1] as int] == w[2 + w[1] as int];
      assert all[3..2 + w[1] as int] == w[3..2 + w[1] as int];
    }
  }

  class HsInput {
    const dir: FileSystem
    var fn: Option<nat>
    var cp: Checkpoint
    // the lsb_input_buffer: buf[scanpos..readpos] has been read and not scanned
    var buf: array<Byte>
    var scanpos: nat
    var readpos: nat
    var msglen: nat

    ghost predicate Valid()
      reads this, buf
    {
      && scanpos <= readpos <= buf.Length
      && buf.Length >= HEADER_BUFFER
    }

    ghost function State(): Reader
      reads this, buf
      requires Valid()
    {
      Reader(fn, cp, buf[scanpos..readpos])
    }

    /** hs_init_input, with the checkpoint that the loader puts into it. */
    constructor (dir: FileSystem, cp: Checkpoint, size: nat)
      requires size >= HEADER_BUFFER
      ensures Valid() && fresh(buf) && this.dir == dir
      ensures State() == Reader(None, cp, []) && msglen == 0
    {
      this.dir := dir;
      fn := None;
      this.cp := cp;
      buf := new Byte[size];
      scanpos, readpos, msglen := 0, 0, 0;
    }

    /** lsb_find_heka_message, library code: take the message at scanpos, or leave the buffer alone
        and note its length in `msglen` if the whole header is there. */
    method FindMessage() returns (msg: Option<Payload>)
      requires Valid()
      requires !ScanFrame(State().window).Corrupt?
      modifies this`scanpos, this`msglen
      ensures Valid()
      ensures msg == Taken(old(State())) && State() == AfterTake(old(State()))
      ensures msg.Some? ==> scanpos > old(scanpos)
      ensures msg.None? ==>
                msglen == match ScanFrame(State().window) case NeedBody(m) => m case _ => 0
    {
      ghost var was := State();
      match ScanFrame(buf[scanpos..readpos])
      case Found(p, n) =>
        assert buf[scanpos + n..readpos] == was.window[n..];
        scanpos := scanpos + n;
        msglen := 0;
        msg := Some(p);
      case NeedBody(m) =>
        msglen := m;
        msg := None;
      case NeedHeader =>
        msglen := 0;
        msg := None;
      case Corrupt =>
        assert false;
    }

    /** lsb_expand_input_buffer, library code: make room for `need` more bytes. */
    method ExpandInputBuffer(need: nat)
      requires Valid()
      modifies this`buf, this`scanpos, this`readpos, buf
      ensures Valid() && State() == old(State())
      ensures buf.Length - readpos >= need
      ensures buf == old(buf) || fresh(buf)
    {
      if need > buf.Length - readpos {
        ghost var window := buf[scanpos..readpos];
        var held := readpos - scanpos;
        var size := if need + held > buf.Length then need + held else buf.Length;
        var bigger := new Byte[size];
        forall i | 0 <= i < held {
          bigger[i] := buf[scanpos + i];
        }
        assert bigger[..held] == window;
        buf, scanpos, readpos := bigger, 0, held;
      }
    }

    /** hs_open_file: true at once when that file is open already. */
    method OpenFile(id: nat) returns (ok: bool)
      requires Valid()
      modifies this`fn, this`cp
      ensures Valid()
      ensures ok == CanOpen(old(State()), dir.files, id)
      ensures State() == if ok then Open(old(State()), id) else old(State())
    {
      if fn == Some(id) {
        return true;
      }
      if id in dir.files {
        if cp.id != id {
          cp := Checkpoint(id, 0);
        }
        fn := Some(id);
        return true;
      }
      return false;
    }

    /** hs_read_file: ask for the rest of a partly buffered message, or else for as much as the buffer
        takes. `limit` is the most that this fread delivers. It delivers nothing only at end of file:
        there is always room for at least one byte. */
    method ReadFile(limit: nat) returns (nread: nat)
      requires Valid()
      requires fn.Some?
      requires limit > 0
      requires Taken(State()).None?
      requires msglen == match ScanFrame(State().window) case NeedBody(m) => m case _ => 0
      requires ScanFrame(State().window).NeedHeader? ==> |State().window| < HEADER_BUFFER
      requires !ScanFrame(State().window).Corrupt?
      modifies this`buf, this`scanpos, this`readpos, this`cp, buf
      ensures Valid()
      ensures buf == old(buf) || fresh(buf)
      ensures nread <= Unread(old(State()), dir.files)
      ensures State() == Read(old(State()), dir.files, nread)
      ensures nread == 0 <==> Unread(old(State()), dir.files) == 0
      // it asks for the rest of a message, or else for a whole buffer
      ensures || nread >= limit
              || nread == Unread(old(State()), dir.files)
              || nread >= Wanted(old(State()), old(buf.Length))
      ensures ScanFrame(old(State()).window).NeedBody? && nread >= Wanted(old(State()), old(buf.Length)) ==>
                Taken(State()).Some?
    {
      ghost var was := State();
      var need: int;
      if msglen != 0 {
        need := msglen + buf[scanpos + 1] as int + HDR_FRAME_SIZE - (readpos - scanpos);
        assert buf[scanpos + 1] == was.window[1];
      } else {
        need := scanpos + buf.Length - readpos;
        assert ScanFrame(was.window).NeedHeader?;
      }
      assert need > 0;
      ExpandInputBuffer(need);
      nread := Fread(limit);
      assert State().window[..|was.window|] == was.window;
      RestCompletes(was.window, State().window[|was.window|..]);
      assert State().window == was.window + State().window[|was.window|..];
    }

    /** fread into the free end of the buffer, and the two positions that count it. */
    method Fread(limit: nat) returns (nread: nat)
      requires Valid() && fn.Some?
      requires limit > 0 && readpos < buf.Length
      modifies this`readpos, this`cp, buf
      ensures Valid()
      ensures nread <= Unread(old(State()), dir.files)
      ensures State() == Read(old(State()), dir.files, nread)
      ensures nread == 0 <==> Unread(old(State()), dir.files) == 0
      ensures nread >= limit || nread == Unread(old(State()), dir.files) || nread == buf.Length - old(readpos)
    {
      ghost var was := State();
      nread := 0;
      if fn.value in dir.files && cp.offset <= |dir.files[fn.value]| {
        var left := |dir.files[fn.value]| - cp.offset;
        var space := buf.Length - readpos;
        nread := if left < space then left else space;
        nread := if limit < nread then limit else nread;
        Store(dir.files[fn.value][cp.offset..cp.offset + nread]);
        cp := cp.(offset := cp.offset + nread);
      }
    }

    method Store(chunk: seq<Byte>)
      requires Valid()
      requires readpos + |chunk| <= buf.Length
      modifies this`readpos, buf
      ensures Valid()
      ensures buf[scanpos..readpos] == old(buf[scanpos..readpos]) + chunk
    {
      ghost var window := buf[scanpos..readpos];
      forall i | readpos <= i < readpos + |chunk| {
        buf[i] := chunk[i - readpos];
      }
      assert buf[scanpos..readpos] == window;
      assert buf[readpos..readpos + |chunk|] == chunk;
      readpos := readpos + |chunk|;
    }
  }

  // ---- leaving a file behind (daemon build) ----

  /** The ids of an unpruned queue directory. */
  ghost predicate Contiguous(files: Contents) {
    forall id :: id in files && id > 0 ==> id - 1 in files
  }

  /** A reader that may look for its next file, with its flag `next` and its count of looks in vain. */
  datatype Search = Search(cp: Checkpoint, next: bool, waitCount: nat)

  /** The first file above `id` that a scan of the directory finds. */
  ghost predicate IsNext(ids: set<nat>, id: nat, later: nat) {
    later in ids && id < later < Decimal.ULLONG_MAX && forall other :: other in ids && id < other ==> later <= other
  }

  /** What one look makes of it. */
  ghost predicate Looks(s: Search, ids: set<nat>, outputSize: nat, r: Search) {
    if s.cp.offset < outputSize && !s.next then r == s
    else if s.cp.id + 1 in ids then r == Search(Checkpoint(s.cp.id + 1, 0), true, s.waitCount)
    else if s.waitCount < 60 && s.cp.offset >= outputSize then r == Search(s.cp, false, s.waitCount + 1)
    else if exists later: nat :: IsNext(ids, s.cp.id, later)
    then r.next && r.waitCount == 0 && r.cp.offset == 0 && IsNext(ids, s.cp.id, r.cp.id)
    else r == Search(s.cp, false, 0)
  }

  ghost predicate Looking(states: seq<Search>, ids: set<nat>, outputSize: nat) {
    forall i :: 0 <= i < |states| - 1 ==> Looks(states[i], ids, outputSize, states[i + 1])
  }

  /** At the end of a full file before a gap the reader waits until it has looked 60 times in vain, and with the
      next look it is at the beginning of the first file behind the gap. */
  lemma {:induction false} GapCrossed(states: seq<Search>, ids: set<nat>, outputSize: nat, later: nat, i: nat)
    requires Looking(states, ids, outputSize) && i < |states|
    requires var s := states[0];
             s.cp.offset >= outputSize && s.waitCount <= 60 && s.cp.id + 1 !in ids && IsNext(ids, s.cp.id, later)
    ensures var w := states[0].waitCount;
            && (i <= 60 - w ==> states[i].cp == states[0].cp && states[i].waitCount == w + i)
            && (i == 61 - w ==> states[i] == Search(Checkpoint(later, 0), true, 0))
  {
    if i > 0 {
      GapCrossed(states, ids, outputSize, later, i - 1);
      assert Looks(states[i - 1], ids, outputSize, states[i]);
    }
  }

  /** In an unpruned directory the file after `id` exists if any later one does. */
  lemma {:induction false} NoGap(files: Contents, id: nat, later: nat)
    requires Contiguous(files)
    requires later in files && id < later
    ensures id + 1 in files
  {
    if later > id + 1 {
      NoGap(files, id, later - 1);
    }
  }

  /** A look moves the reader only upwards, to the beginning of a file that exists, and past none; without pruning it
      never skips. A file that is there is reached at once when the current one is full or was just opened, and over a
      gap when the wait is over or the current file will not fill up any more. */
  lemma LookPassesNone(s: Search, files: Contents, outputSize: nat, r: Search)
    requires Looks(s, files.Keys, outputSize, r)
    ensures r.cp == s.cp || (r.cp.id > s.cp.id && r.cp.offset == 0 && r.cp.id in files)
    ensures forall id :: id in files && s.cp.id < id ==> r.cp.id <= id
    ensures Contiguous(files) ==> r.cp.id <= s.cp.id + 1
    ensures (s.cp.offset >= outputSize || s.next) && s.cp.id + 1 in files ==> r.cp.id == s.cp.id + 1
    ensures (s.cp.offset >= outputSize || s.next) && (s.waitCount >= 60 || s.cp.offset < outputSize) &&
            (exists later: nat :: IsNext(files.Keys, s.cp.id, later)) ==>
              r.cp.id > s.cp.id
  {
    if Contiguous(files) && r.cp.id > s.cp.id + 1 {
      NoGap(files, s.cp.id, r.cp.id);
    }
  }

  lemma NextFound(ids: set<nat>, id: nat, next: nat)
    requires next == 0 <==> !exists later :: later in ids && id < later < Decimal.ULLONG_MAX
    requires next != 0 ==> next in ids && id < next < Decimal.ULLONG_MAX
    requires next != 0 ==> forall later :: later in ids && id < later ==> next <= later
    ensures if next == 0 then forall later: nat :: !IsNext(ids, id, later) else IsNext(ids, id, next)
  {
  }

  /** The part of the reader loops behind a read that returned nothing: open the next file, or, after
      a minute of waiting or when the file is not even full, look for the next one that exists. */
  method NextFile(input: HsInput, names: seq<string>, outputSize: nat, next: bool, waitCount: nat)
    returns (next': bool, waitCount': nat)
    requires input.Valid()
    requires Ids(names) == input.dir.files.Keys
    requires input.fn == Some(input.cp.id)
    modifies input`fn, input`cp
    ensures input.Valid() && input.fn == Some(input.cp.id)
    ensures input.buf[input.scanpos..input.readpos] == old(input.buf[input.scanpos..input.readpos])
    ensures Looks(Search(old(input.cp), next, waitCount), input.dir.files.Keys, outputSize,
                  Search(input.cp, next', waitCount'))
  {
    hide IsNext;
    next', waitCount' := next, waitCount;
    if input.cp.offset >= outputSize || next {
      var ok := input.OpenFile(input.cp.id + 1);
      next' := ok;
      if !ok {
        waitCount' := waitCount' + 1;
        if waitCount' > 60 || input.cp.offset < outputSize {
          var nextId := FindNextId(names, input.cp.id);
          NextFound(input.dir.files.Keys, input.cp.id, nextId);
          if nextId > input.cp.id + 1 {
            next' := input.OpenFile(nextId);
          }
          waitCount' := 0;
        }
      }
    }
  }
}
