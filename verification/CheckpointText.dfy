/** The checkpoint table and the queue positions in it: `"%f:%f"` text, which lua_pushfstring writes
    with Lua's number format `%.14g`, and its reading with strchr and strtoull. */
module CheckpointText {
  import opened Options
  import opened Decimal
  import opened Directory
  import opened Queue
  import D = Delivery

  /** The first integer that `%.14g` no longer writes in full. */
  const G14_LIMIT := 100_000_000_000_000

  /** What `%.14g` makes of the double nearest to `n`: all digits below G14_LIMIT; from there on the
      exponent form, one leading digit and then a fraction or the exponent. */
  ghost predicate PrintsAs(n: nat, text: string) {
    if n < G14_LIMIT then text == Digits(n) else ExponentForm(text)
  }

  predicate ExponentForm(text: string) {
    && |text| >= 2 && '1' <= text[0] <= '9' && (text[1] == '.' || text[1] == 'e')
    && ':' !in text && '\0' !in text && '\'' !in text
  }

  /** The part of a string that C sees. */
  function CString(s: string): (r: string)
    ensures r <= s && '\0' !in r
    ensures '\0' !in s ==> r == s
    ensures |r| < |s| ==> s[|r|] == '\0'
  {
    if s == [] || s[0] == '\0' then []
    else
      assert forall i :: 0 <= i < |s[1..]| ==> s[1..][i] == s[i + 1];
      [s[0]] + CString(s[1..])
  }

  lemma {:induction false} CStringStops(s: string, rest: string)
    requires '\0' !in s
    ensures CString(s + "\0" + rest) == s
  {
    if s == [] {
      assert s + "\0" + rest == "\0" + rest;
    } else {
      assert (s + "\0" + rest)[1..] == s[1..] + "\0" + rest;
      CStringStops(s[1..], rest);
    }
  }

  /** strchr(s, ':'). */
  function ColonAt(s: string): (i: nat)
    ensures i <= |s| && ':' !in s[..i]
    ensures i < |s| ==> s[i] == ':'
  {
    if s == [] || s[0] == ':' then 0
    else
      assert forall i :: 0 <= i < |s[1..]| ==> s[1..][i] == s[i + 1];
      1 + ColonAt(s[1..])
  }

  /** The position that an entry of the table stands for, if it holds one. */
  function Parse(entry: string): Option<Checkpoint> {
    var s := CString(entry);
    var i := ColonAt(s);
    if i < |s| then Some(Checkpoint(StrToULL(s), StrToULL(s[i + 1..]))) else None
  }

  lemma NoSpecial(n: nat)
    ensures ':' !in Digits(n) && '\0' !in Digits(n) && '\'' !in Digits(n)
  {
    var s := Digits(n);
    assert forall i :: 0 <= i < |s| ==> IsDigit(s[i]);
  }

  /** A printed number comes back exactly if it has at most 14 digits. */
  lemma NumberRoundTrip(n: nat, text: string, rest: string)
    requires PrintsAs(n, text)
    requires rest == [] || !IsDigit(rest[0])
    ensures StrToULL(text + rest) == n <==> n < G14_LIMIT
    ensures n >= G14_LIMIT ==> StrToULL(text + rest) < 10
  {
    if n < G14_LIMIT {
      StrToULLDigits(n, rest);
    } else {
      LeadingDigit(text, rest);
    }
  }

  lemma LeadingDigit(text: string, rest: string)
    requires ExponentForm(text)
    ensures StrToULL(text + rest) < 10
  {
    assert text + rest == text[..1] + (text[1..] + rest);
    DigitRunOf(text[..1], text[1..] + rest);
    var digit := text[..1];
    assert (text + rest)[..1] == digit == [text[0]];
    assert digit[..0] == [] && Value([]) == 0;
  }

  lemma {:induction false} ColonIsUnique(a: string, b: string)
    requires ':' !in a
    ensures ColonAt(a + ":" + b) == |a|
  {
    if a == [] {
      assert a + ":" + b == ":" + b;
    } else {
      assert (a + ":" + b)[1..] == a[1..] + ":" + b;
      ColonIsUnique(a[1..], b);
    }
  }

  /** Text that hs_update_input_checkpoint may write for a position: its two numbers, rendered. */
  datatype Entry = Entry(id: string, offset: string) {
    function Text(): string {
      id + ":" + offset
    }

    ghost predicate Of(cp: Checkpoint) {
      PrintsAs(cp.id, id) && PrintsAs(cp.offset, offset)
    }
  }

  predicate Fits(cp: Checkpoint) {
    cp.id < G14_LIMIT && cp.offset < G14_LIMIT
  }

  lemma ParseText(id: string, offset: string)
    requires ':' !in id && '\0' !in id && '\0' !in offset
    ensures Parse(id + ":" + offset) == Some(Checkpoint(StrToULL(id + (":" + offset)), StrToULL(offset)))
  {
    hide StrToULL, ColonAt;
    var s := id + ":" + offset;
    assert CString(s) == s;
    ColonIsUnique(id, offset);
    assert s == id + (":" + offset) && s[|id| + 1..] == offset;
  }

  /** A position written to the table is read back as itself exactly if both of its numbers are below
      10^14; a larger one comes back as its leading digit. */
  lemma PositionRoundTrip(cp: Checkpoint, entry: Entry)
    requires entry.Of(cp)
    ensures Parse(entry.Text()).Some?
    ensures Parse(entry.Text()) == Some(cp) <==> Fits(cp)
    ensures cp.id >= G14_LIMIT ==> Parse(entry.Text()).value.id < 10
    ensures cp.offset >= G14_LIMIT ==> Parse(entry.Text()).value.offset < 10
  {
    hide StrToULL, Parse, Digits, CString, ColonAt;
    var id, offset := entry.id, entry.offset;
    NoSpecial(cp.id);
    NoSpecial(cp.offset);
    ParseText(id, offset);
    NumberRoundTrip(cp.id, id, ":" + offset);
    NumberRoundTrip(cp.offset, offset, "");
    assert offset + "" == offset;
  }

  // ---- the table ----

  const INPUT_DIR := "input"
  const ANALYSIS_DIR := "analysis"

  function DirOf(src: D.Source): string {
    if src.FromInput? then INPUT_DIR else ANALYSIS_DIR
  }

  /** The key of a reader's position in a queue; without a reader it is the writer's own. */
  function KeyOf(subdir: string, key: Option<string>): string {
    if key.Some? then subdir + "->" + key.value else subdir
  }

  /** No two readers share an entry, in one queue or in two, and none has the writer's. */
  lemma KeysDistinct(a: D.Source, k: Option<string>, b: D.Source, l: Option<string>)
    ensures KeyOf(DirOf(a), k) == KeyOf(DirOf(b), l) <==> a == b && k == l
  {
    var s, t := KeyOf(DirOf(a), k), KeyOf(DirOf(b), l);
    assert s[0] == DirOf(a)[0] && t[0] == DirOf(b)[0];
    if a == b && k.Some? && l.Some? && s == t {
      var n := |DirOf(a)| + 2;
      assert s[n..] == k.value && t[n..] == l.value;
    }
  }

  /** The string checkpoints of the reader's Lua state. */
  type Values = map<string, string>

  function Stored(values: Values, key: string): Option<Checkpoint> {
    if key in values then Parse(values[key]) else None
  }

  /** Where hs_lookup_input_checkpoint leaves `cp`: the reader's entry; else, at start-up, the first
      file of the queue directory; else the writer's position; else `cp` itself. */
  ghost predicate LooksUp(values: Values, subdir: string, key: Option<string>, names: Option<seq<string>>,
                          cp: Checkpoint, r: Checkpoint) {
    match Stored(values, KeyOf(subdir, key))
    case Some(stored) => r == stored
    case None =>
      if names.Some? then
        r.offset == cp.offset && (if forall id :: id in Ids(names.value) ==> id == ULLONG_MAX then r.id == 0
                                  else r.id in Ids(names.value) && forall id :: id in Ids(names.value) ==> r.id <= id)
      else match (if key.Some? then Stored(values, subdir) else None)
        case Some(stored) => r == stored
        case None => r == cp
  }

  /** The table after an output plugin's thread has stored its positions. */
  function Saved(values: Values, name: string, queues: D.ReadQueue, input: Entry, analysis: Entry): Values {
    var v := if D.Reads(queues, D.FromInput) then values[KeyOf(INPUT_DIR, Some(name)) := input.Text()] else values;
    if D.Reads(queues, D.FromAnalysis) then v[KeyOf(ANALYSIS_DIR, Some(name)) := analysis.Text()] else v
  }

  function Removed(values: Values, name: string, queues: D.ReadQueue): Values {
    var v := if D.Reads(queues, D.FromInput) then values - {KeyOf(INPUT_DIR, Some(name))} else values;
    if D.Reads(queues, D.FromAnalysis) then v - {KeyOf(ANALYSIS_DIR, Some(name))} else v
  }

  /** A removed position is gone, and nobody else's is. */
  lemma RemovedIsGone(values: Values, name: string, queues: D.ReadQueue, src: D.Source, key: Option<string>)
    ensures Stored(Removed(values, name, queues), KeyOf(DirOf(src), key)) ==
            if key == Some(name) && D.Reads(queues, src) then None else Stored(values, KeyOf(DirOf(src), key))
  {
    hide KeyOf, Parse;
    KeysDistinct(D.FromInput, Some(name), src, key);
    KeysDistinct(D.FromAnalysis, Some(name), src, key);
  }

  /** Both positions can be told apart and found again, exactly if they fit. */
  lemma SavedIsStored(values: Values, name: string, queues: D.ReadQueue, cp: D.Pair, input: Entry, analysis: Entry,
                      src: D.Source)
    requires input.Of(cp.input) && analysis.Of(cp.analysis)
    requires D.Reads(queues, src)
    ensures var stored := Stored(Saved(values, name, queues, input, analysis), KeyOf(DirOf(src), Some(name)));
            stored.Some? && (stored == Some(D.At(cp, src)) <==> Fits(D.At(cp, src)))
  {
    hide KeyOf, Parse, Fits, Entry.Of, Entry.Text;
    KeysDistinct(D.FromInput, Some(name), D.FromAnalysis, Some(name));
    PositionRoundTrip(cp.input, input);
    PositionRoundTrip(cp.analysis, analysis);
  }

  /** Nobody else's position, and no writer's, changes. */
  lemma SavedKeepsOthers(values: Values, name: string, queues: D.ReadQueue, input: Entry, analysis: Entry,
                         src: D.Source, key: Option<string>)
    requires key != Some(name) || !D.Reads(queues, src)
    ensures Stored(Saved(values, name, queues, input, analysis), KeyOf(DirOf(src), key)) ==
        Stored(values, KeyOf(DirOf(src), key))
  {
    hide KeyOf, Parse, Entry.Text;
    KeysDistinct(D.FromInput, Some(name), src, key);
    KeysDistinct(D.FromAnalysis, Some(name), src, key);
  }

  class CheckpointReader {
    var values: Values

    /** hs_update_input_checkpoint; the two rendered numbers come in as `entry`. */
    method UpdateInputCheckpoint(subdir: string, key: Option<string>, ghost cp: Checkpoint, entry: Entry)
      requires entry.Of(cp)
      modifies this
      ensures values == old(values)[KeyOf(subdir, key) := entry.Text()]
      ensures Stored(values, KeyOf(subdir, key)) == Some(cp) <==> Fits(cp)
    {
      PositionRoundTrip(cp, entry);
      values := values[KeyOf(subdir, key) := entry.id + ":" + entry.offset];
    }

    /** hs_lookup_input_checkpoint; `path` is given as the names in the queue directory. */
    method LookupInputCheckpoint(subdir: string, key: Option<string>, names: Option<seq<string>>, cp: Checkpoint)
      returns (r: Checkpoint)
      ensures LooksUp(values, subdir, key, names, cp, r)
      decreases key.Some?
    {
      r := cp;
      var found := false;
      var name := KeyOf(subdir, key);
      if name in values {
        var text := CString(values[name]);
        var pos := ColonAt(text);
        if pos < |text| {
          found := true;
          r := Checkpoint(StrToULL(text), StrToULL(text[pos + 1..]));
        }
      }
      if !found {
        if names.Some? {
          var id := FindFirstId(names.value);
          r := r.(id := id);
        } else if key.Some? {
          r := LookupInputCheckpoint(subdir, None, names, r);
        }
      }
    }

    /** The end of an output plugin's thread: its positions stay in the table. */
    method SavePositions(name: string, queues: D.ReadQueue, ghost cp: D.Pair, input: Entry, analysis: Entry)
      requires input.Of(cp.input) && analysis.Of(cp.analysis)
      modifies this
      ensures values == Saved(old(values), name, queues, input, analysis)
    {
      if !queues.AnalysisOnly? {
        UpdateInputCheckpoint(INPUT_DIR, Some(name), cp.input, input);
      }
      if !queues.InputOnly? {
        UpdateInputCheckpoint(ANALYSIS_DIR, Some(name), cp.analysis, analysis);
      }
    }

    /** remove_checkpoint_q: forget the positions in the queues that the plugin reads. */
    method RemoveCheckpointQ(name: string, queues: D.ReadQueue)
      modifies this
      ensures values == Removed(old(values), name, queues)
    {
      if !queues.AnalysisOnly? {
        values := values - {KeyOf(INPUT_DIR, Some(name))};
      }
      if !queues.InputOnly? {
        values := values - {KeyOf(ANALYSIS_DIR, Some(name))};
      }
    }

    /** add_to_output_plugins: where the plugin starts; `names` are the queue directories at start-up. */
    method SyncPositions(name: string, queues: D.ReadQueue, names: Option<(seq<string>, seq<string>)>)
      returns (r: D.Pair)
      modifies this
      ensures forall src :: if D.Reads(queues, src)
                            then LooksUp(old(values), DirOf(src), Some(name), NamesOf(names, src), Checkpoint(0, 0),
                                D.At(r, src))
                            else D.At(r, src) == Checkpoint(0, 0)
      ensures forall key :: key in values <==>
                key in old(values) && forall src :: !D.Reads(queues, src) ==> key != KeyOf(DirOf(src), Some(name))
      ensures forall key :: key in values ==> values[key] == old(values)[key]
    {
      KeysDistinct(D.FromInput, Some(name), D.FromAnalysis, Some(name));
      KeysDistinct(D.FromInput, Some(name), D.FromAnalysis, None);
      r := D.NOWHERE;
      if !queues.AnalysisOnly? {
        var cp := LookupInputCheckpoint(INPUT_DIR, Some(name), NamesOf(names, D.FromInput), Checkpoint(0, 0));
        r := r.(input := cp);
      } else {
        values := values - {KeyOf(INPUT_DIR, Some(name))};
      }
      if !queues.InputOnly? {
        var cp := LookupInputCheckpoint(ANALYSIS_DIR, Some(name), NamesOf(names, D.FromAnalysis), Checkpoint(0, 0));
        r := r.(analysis := cp);
      } else {
        values := values - {KeyOf(ANALYSIS_DIR, Some(name))};
      }
    }

    /** A plugin stops and is started again, dynamically or not: on each queue that it reads it stands
        where it stopped, exactly if both numbers of that position are below 10^14. */
    method Reload(name: string, queues: D.ReadQueue, cp: D.Pair, input: Entry, analysis: Entry,
                  names: Option<(seq<string>, seq<string>)>)
      returns (r: D.Pair)
      requires input.Of(cp.input) && analysis.Of(cp.analysis)
      modifies this
      ensures forall src :: D.Reads(queues, src) ==> (D.At(r, src) == D.At(cp, src) <==> Fits(D.At(cp, src)))
    {
      hide KeyOf, Stored, Fits;
      SavePositions(name, queues, cp, input, analysis);
      ghost var saved := values;
      r := SyncPositions(name, queues, names);
      forall src | D.Reads(queues, src)
        ensures D.At(r, src) == D.At(cp, src) <==> Fits(D.At(cp, src))
      {
        SavedIsStored(old(values), name, queues, cp, input, analysis, src);
        assert LooksUp(saved, DirOf(src), Some(name), NamesOf(names, src), Checkpoint(0, 0), D.At(r, src));
      }
    }
  }

  function NamesOf(names: Option<(seq<string>, seq<string>)>, src: D.Source): Option<seq<string>> {
    if names.None? then None else Some(if src.FromInput? then names.value.0 else names.value.1)
  }
}
