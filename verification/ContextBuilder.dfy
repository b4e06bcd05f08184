/** `CodingContextBuilder.build`: which candidate files enter a context, and how much of each. */
module ContextBuilder {
  import opened Wrappers
  import opened Paths
  import opened Utf8
  import opened Patching

  datatype ContextLimits = ContextLimits(maximumFiles: nat, maximumBytesPerFile: nat, maximumTotalBytes: nat, maximumPromptBytes: nat)

  datatype Entry = Entry(path: string, content: string, truncated: bool)

  /** What one candidate name turns out to be. */
  datatype Candidate = Refused | Skipped | Readable(path: string, text: string)

  const SECRET_FILES := {".env", ".npmrc", ".pypirc", "credentials", "id_rsa"}

  function LastPart(p: Path): string {
    if p == [] then "" else p[|p| - 1]
  }

  /** A path that escapes the workspace or runs through a file stops the whole build; anything that is
      not an allowed, NUL-free UTF-8 file is left out silently. */
  function Inspect(casefold: string -> string, files: map<Path, seq<Byte>>, task: TaskPolicy, name: string): Candidate {
    var path := Normalize(name);
    if casefold(LastPart(Components(path))) in SECRET_FILES then Skipped
    else if !SafeRelative(path) then Refused
    else if !AllowedPath(path, task.allowed, task.forbidden) then Skipped
    else if exists i :: 0 < i < |Components(path)| && Components(path)[..i] in files then Refused
    else if Components(path) !in files then Skipped
    else if 0 in files[Components(path)] then Skipped
    else
      match Decode(files[Components(path)])
      case None => Skipped
      case Some(text) => Readable(path, text)
  }

  /** The path lies below an allowed prefix, if there are any, and below no forbidden one. */
  predicate Allowed(task: TaskPolicy, name: string) {
    && (task.allowed == [] || exists i :: 0 <= i < |task.allowed| && Under(name, task.allowed[i]))
    && forall i :: 0 <= i < |task.forbidden| ==> !Under(name, task.forbidden[i])
  }

  predicate NamesSecret(casefold: string -> string, name: string) {
    var p := Components(Normalize(name));
    casefold(if p == [] then "" else p[|p| - 1]) in {"id_rsa", "credentials", ".pypirc", ".npmrc", ".env"}
  }

  predicate RunsThroughFile(files: map<Path, seq<Byte>>, p: Path) {
    exists i :: 0 < i < |p| && p[..i] in files
  }

  lemma AllowedIs(task: TaskPolicy, name: string)
    ensures AllowedPath(Normalize(name), task.allowed, task.forbidden) <==> Allowed(task, name)
  {
    hide Components, MatchesPrefix;
    assert Normalize(Normalize(name)) == Normalize(name);
    forall prefix: string ensures MatchesPrefix(Normalize(name), prefix) <==> Under(name, prefix) {
      MatchesIffUnder(Normalize(name), prefix);
    }
  }

  lemma SafeIs(name: string)
    ensures SafeRelative(Normalize(name)) <==> StaysInside(name)
  {
    hide Components;
    assert Normalize(Normalize(name)) == Normalize(name);
    forall c | c != '/' && c != '\\' ensures c in Normalize(name) <==> c in name {
      if c in name {
        var i :| 0 <= i < |name| && name[i] == c;
        assert Normalize(name)[i] == c;
      }
    }
  }

  /** What becomes of one candidate: files named like secrets are never looked at; a path that leaves the
      workspace, or an allowed one that runs through a file, stops the build; and it is read exactly when it is
      allowed and a file holding the encoding of its text without NUL. */
  lemma InspectIs(casefold: string -> string, files: map<Path, seq<Byte>>, task: TaskPolicy, name: string, text: string)
    ensures var p, candidate := Components(Normalize(name)), Inspect(casefold, files, task, name);
      && (candidate.Refused? <==>
            !NamesSecret(casefold, name) && (!StaysInside(name) || (Allowed(task, name) && RunsThroughFile(files, p))))
      && (candidate == Readable(Normalize(name), text) <==>
            && !NamesSecret(casefold, name) && StaysInside(name) && Allowed(task, name) && !RunsThroughFile(files, p)
            && p in files && 0 !in files[p] && files[p] == Encode(text))
      && (candidate.Readable? ==> candidate.path == Normalize(name))
  {
    hide Components, SafeRelative, StaysInside, AllowedPath, Allowed, Encode, Decode;
    SafeIs(name);
    AllowedIs(task, name);
    var p := Components(Normalize(name));
    if p in files {
      DecodeExactlyEncoded(files[p], text);
    }
  }

  function Minimum(a: int, b: int): int {
    if a < b then a else b
  }

  /** The bytes the next file may use once `used` are taken. */
  function Available(limits: ContextLimits, used: int): int {
    Minimum(limits.maximumBytesPerFile, limits.maximumTotalBytes - used)
  }

  function EntryFor(path: string, text: string, available: nat): Entry {
    var content := text[..Fit(text, available)];
    Entry(path, content, content != text)
  }

  /** The entries of the candidates in order; None when one of them stops the build. */
  function Entries(limits: ContextLimits, items: seq<Candidate>, used: nat): Option<seq<Entry>> {
    if items == [] then Some([])
    else
      match items[0]
      case Refused => None
      case Skipped => Entries(limits, items[1..], used)
      case Readable(path, text) =>
        if Available(limits, used) <= 0 then Some([])
        else
          var entry := EntryFor(path, text, Available(limits, used));
          match Entries(limits, items[1..], used + Length(entry.content))
          case None => None
          case Some(rest) => Some([entry] + rest)
  }

  /** The encoded size of everything included. */
  function Included(entries: seq<Entry>): nat {
    if entries == [] then 0 else Length(entries[0].content) + Included(entries[1..])
  }

  /** The readable candidates in order. */
  function Readables(items: seq<Candidate>): seq<Candidate> {
    if items == [] then []
    else if items[0].Readable? then [items[0]] + Readables(items[1..])
    else Readables(items[1..])
  }

  /** The entry is the longest prefix of its file that fits; `truncated` says that it is a proper one. */
  ghost predicate LongestPrefix(entry: Entry, file: Candidate, available: int) {
    && file.Readable? && entry.path == file.path
    && entry.content <= file.text
    && (forall k :: 0 <= k <= |file.text| ==> (Length(file.text[..k]) <= available <==> k <= |entry.content|))
    && (entry.truncated <==> |entry.content| < |file.text|)
  }

  lemma EntryIsLongest(path: string, text: string, available: nat)
    ensures LongestPrefix(EntryFor(path, text, available), Readable(path, text), available)
    ensures Length(EntryFor(path, text, available).content) <= available
  {
    forall k | 0 <= k <= |text| ensures Length(text[..k]) <= available <==> k <= Fit(text, available) {
      FitIsLongest(text, available, k);
    }
    assert Length(text[..Fit(text, available)]) <= available;
    if Fit(text, available) == |text| {
      assert text[..|text|] == text;
    }
  }

  ghost predicate EachLongest(limits: ContextLimits, used: nat, entries: seq<Entry>, files: seq<Candidate>)
    requires |entries| <= |files|
  {
    forall j :: 0 <= j < |entries| ==> LongestPrefix(entries[j], files[j], Available(limits, used + Included(entries[..j])))
  }

  lemma EachLongestStep(limits: ContextLimits, used: nat, entry: Entry, rest: seq<Entry>, file: Candidate, files: seq<Candidate>)
    requires |rest| <= |files| && LongestPrefix(entry, file, Available(limits, used))
    requires EachLongest(limits, used + Length(entry.content), rest, files)
    ensures EachLongest(limits, used, [entry] + rest, [file] + files)
  {
    hide LongestPrefix, Length, Available;
    var entries := [entry] + rest;
    forall j | 0 <= j < |entries|
      ensures LongestPrefix(entries[j], ([file] + files)[j], Available(limits, used + Included(entries[..j])))
    {
      if j == 0 {
        assert entries[..0] == [];
      } else {
        assert entries[..j][1..] == rest[..j - 1];
      }
    }
  }

  /** Budget: every entry is the longest code-point prefix of its file that fits into what is left, the
      entries are those of the first readable candidates, the sum of their encodings never exceeds the
      total limit, and a readable candidate is left out only when nothing is left. */
  lemma {:induction false} EntriesFillBudget(limits: ContextLimits, items: seq<Candidate>, used: nat)
    requires Entries(limits, items, used).Some? && used <= limits.maximumTotalBytes
    ensures var entries := Entries(limits, items, used).value;
      && |entries| <= |Readables(items)|
      && EachLongest(limits, used, entries, Readables(items))
      && used + Included(entries) <= limits.maximumTotalBytes
      && (|entries| < |Readables(items)| ==> Available(limits, used + Included(entries)) == 0)
  {
    hide LongestPrefix, EntryFor, Length, EachLongest;
    if items == [] {
      NoneLongest(limits, used, []);
    } else if !items[0].Readable? {
      EntriesFillBudget(limits, items[1..], used);
    } else if Available(limits, used) > 0 {
      var entry := EntryFor(items[0].path, items[0].text, Available(limits, used));
      EntryIsLongest(items[0].path, items[0].text, Available(limits, used));
      EntriesFillBudget(limits, items[1..], used + Length(entry.content));
      EachLongestStep(limits, used, entry, Entries(limits, items[1..], used + Length(entry.content)).value, items[0], Readables(items[1..]));
    } else {
      NoneLongest(limits, used, Readables(items));
    }
  }

  lemma NoneLongest(limits: ContextLimits, used: nat, files: seq<Candidate>)
    ensures EachLongest(limits, used, [], files)
  {
  }

  /** The same in numbers: entry `j` holds as many leading characters of the `j`-th readable file as fit both
      the limit per file and what the entries before it left of the total, and no more; and a readable file is
      left out only when the total is used up or the limit per file is zero. */
  lemma EntriesAreLongest(limits: ContextLimits, items: seq<Candidate>, j: nat, k: nat)
    requires Entries(limits, items, 0).Some?
    ensures var entries, files := Entries(limits, items, 0).value, Readables(items);
      && |entries| <= |files|
      && Included(entries) <= limits.maximumTotalBytes
      && (|entries| < |files| ==> Included(entries) == limits.maximumTotalBytes || limits.maximumBytesPerFile == 0)
      && (j < |entries| ==>
            && files[j].Readable? && entries[j].path == files[j].path
            && entries[j].content <= files[j].text
            && (entries[j].truncated <==> entries[j].content != files[j].text)
            && (k <= |files[j].text| ==>
                  (k <= |entries[j].content| <==>
                     Length(files[j].text[..k]) <= limits.maximumBytesPerFile
                     && Included(entries[..j]) + Length(files[j].text[..k]) <= limits.maximumTotalBytes)))
  {
    hide Entries, Readables, Length, Included, LongestPrefix, EachLongest;
    EntriesFillBudget(limits, items, 0);
    var entries, files := Entries(limits, items, 0).value, Readables(items);
    if j < |entries| {
      EachIsLongest(limits, 0, entries, files, j);
      LongestMeans(entries[j], files[j], Available(limits, Included(entries[..j])), k);
    }
  }

  lemma EachIsLongest(limits: ContextLimits, used: nat, entries: seq<Entry>, files: seq<Candidate>, j: nat)
    requires |entries| <= |files| && EachLongest(limits, used, entries, files) && j < |entries|
    ensures LongestPrefix(entries[j], files[j], Available(limits, used + Included(entries[..j])))
  {
    hide LongestPrefix, Available, Included;
  }

  lemma LongestMeans(entry: Entry, file: Candidate, available: int, k: nat)
    requires LongestPrefix(entry, file, available)
    ensures file.Readable? && entry.path == file.path && entry.content <= file.text
    ensures entry.truncated <==> entry.content != file.text
    ensures k <= |file.text| ==> (Length(file.text[..k]) <= available <==> k <= |entry.content|)
  {
    hide Length;
  }

  /** Candidate `i` is refused, and every readable file before it found some budget left. */
  ghost predicate StopsAt(limits: ContextLimits, items: seq<Candidate>, used: nat, i: nat) {
    && i < |items| && items[i].Refused?
    && Entries(limits, items[..i], used).Some?
    && |Entries(limits, items[..i], used).value| == |Readables(items[..i])|
  }

  lemma StopsAtStep(limits: ContextLimits, items: seq<Candidate>, used: nat, i: nat)
    requires 0 < i < |items| && !items[0].Refused?
    ensures StopsAt(limits, items, used, i) <==>
      if items[0].Skipped? then StopsAt(limits, items[1..], used, i - 1)
      else Available(limits, used) > 0
           && StopsAt(limits, items[1..], used + Length(EntryFor(items[0].path, items[0].text, Available(limits, used)).content), i - 1)
  {
    hide EntryFor, Length, Available;
    assert items[..i][0] == items[0] && items[..i][1..] == items[1..][..i - 1];
    assert items[1..][i - 1] == items[i];
  }

  /** The build stops exactly when a refused candidate comes up before the budget is used up. */
  lemma {:induction false} RefusedIff(limits: ContextLimits, items: seq<Candidate>, used: nat)
    ensures Entries(limits, items, used).None? <==> exists i: nat :: StopsAt(limits, items, used, i)
  {
    hide EntryFor, Length, StopsAt;
    if items == [] {
      NoStop(limits, items, used);
    } else if items[0].Refused? {
      FirstStops(limits, items, used);
    } else if items[0].Readable? && Available(limits, used) <= 0 {
      NoStop(limits, items, used);
    } else {
      var next := if items[0].Skipped? then used
        else used + Length(EntryFor(items[0].path, items[0].text, Available(limits, used)).content);
      RefusedIff(limits, items[1..], next);
      Shifted(limits, items, used, next);
    }
  }

  lemma FirstStops(limits: ContextLimits, items: seq<Candidate>, used: nat)
    requires items != [] && items[0].Refused?
    ensures StopsAt(limits, items, used, 0)
  {
    assert items[..0] == [];
  }

  lemma NoStop(limits: ContextLimits, items: seq<Candidate>, used: nat)
    requires items == [] || (items[0].Readable? && Available(limits, used) <= 0)
    ensures forall i: nat :: !StopsAt(limits, items, used, i)
  {
    hide Available, EntryFor;
    forall i: nat ensures !StopsAt(limits, items, used, i) {
      if 0 < i < |items| {
        StopsAtStep(limits, items, used, i);
      }
    }
  }

  lemma Shifted(limits: ContextLimits, items: seq<Candidate>, used: nat, next: nat)
    requires items != [] && !items[0].Refused?
    requires next == if items[0].Skipped? then used
      else used + Length(EntryFor(items[0].path, items[0].text, if Available(limits, used) > 0 then Available(limits, used) else 0).content)
    requires items[0].Skipped? || Available(limits, used) > 0
    ensures (exists i: nat :: StopsAt(limits, items, used, i)) <==> exists i: nat :: StopsAt(limits, items[1..], next, i)
  {
    hide EntryFor, Length, Available, Entries;
    if i: nat :| StopsAt(limits, items, used, i) {
      StopsAtStep(limits, items, used, i);
      assert StopsAt(limits, items[1..], next, i - 1);
    }
    if i: nat :| StopsAt(limits, items[1..], next, i) {
      StopsAtStep(limits, items, used, i + 1);
      assert StopsAt(limits, items, used, i + 1);
    }
  }

  /** What the candidates of a task turn out to be. */
  function Inspected(casefold: string -> string, files: map<Path, seq<Byte>>, task: TaskPolicy, names: seq<string>): seq<Candidate> {
    seq(|names|, i requires 0 <= i < |names| => Inspect(casefold, files, task, names[i]))
  }

  /** The truncation test of the code compares encoded sizes; it says whether anything was cut off. */
  lemma ShorterEncoding(text: string, n: nat)
    requires n <= |text|
    ensures Length(text[..n]) < Length(text) <==> text[..n] != text
  {
    EncodeSplits(text, n);
    if n < |text| {
      assert text[n..] != [];
      assert EncodeChar(text[n..][0]) != [];
    } else {
      assert text[..n] == text;
    }
  }

  lemma {:induction false} IncludedAppend(entries: seq<Entry>, entry: Entry)
    ensures Included(entries + [entry]) == Included(entries) + Length(entry.content)
  {
    hide Length;
    if entries != [] {
      assert (entries + [entry])[1..] == entries[1..] + [entry];
      IncludedAppend(entries[1..], entry);
    } else {
      assert [entry][1..] == [];
    }
  }

  /** What is still to come after the candidates before `i` gave `done`. */
  ghost predicate StillToCome(limits: ContextLimits, items: seq<Candidate>, i: nat, done: seq<Entry>, total: nat)
    requires i <= |items|
  {
    Entries(limits, items, 0) ==
    match Entries(limits, items[i..], total)
    case None => None
    case Some(rest) => Some(done + rest)
  }

  /** `build`'s loop and the prompt limit: the entries and the byte count, or None when it raises. Only the first
      `maximumFiles` candidates are looked at. */
  method Build(limits: ContextLimits, casefold: string -> string, files: map<Path, seq<Byte>>, task: TaskPolicy,
               candidateFiles: seq<string>, promptSize: seq<Entry> -> nat)
    returns (package: Option<seq<Entry>>, total: nat)
    ensures var names := candidateFiles[..if limits.maximumFiles < |candidateFiles| then limits.maximumFiles else |candidateFiles|];
      var entries := Entries(limits, Inspected(casefold, files, task, names), 0);
      package == if entries.Some? && promptSize(entries.value) <= limits.maximumPromptBytes then entries else None
    ensures package.Some? ==> total == Included(package.value) <= limits.maximumTotalBytes
  {
    hide Inspect, EntryFor, Encode, DecodeIgnore, Available;
    var names := candidateFiles[..if limits.maximumFiles < |candidateFiles| then limits.maximumFiles else |candidateFiles|];
    ghost var items := Inspected(casefold, files, task, names);
    var entries: seq<Entry> := [];
    total := 0;
    var i := 0;
    Starts(limits, items);
    while i < |names|
      invariant 0 <= i <= |names| == |items|
      invariant total == Included(entries)
      invariant StillToCome(limits, items, i, entries, total)
    {
      assert items[i..][0] == items[i] && items[i..][1..] == items[i + 1..];
      match Inspect(casefold, files, task, names[i]) {
        case Refused =>
          return None, total;
        case Skipped =>
        case Readable(path, text) =>
          var available := Available(limits, total);
          if available <= 0 {
            break;
          }
          var raw := Encode(text);
          var cut := DecodeIgnore(raw[..if available < |raw| then available else |raw|]);
          var used := Length(cut);
          var entry := Entry(path, cut, used < |raw|);
          CutEntry(path, text, available, cut);
          IncludedAppend(entries, entry);
          Appends(limits, items, i, entries, total, entry);
          total := total + used;
          entries := entries + [entry];
      }
      i := i + 1;
    }
    assert Entries(limits, items, 0) == Some(entries) by {
      Stops(limits, items, i, entries, total);
    }
    EntriesFillBudget(limits, items, 0);
    package := if promptSize(entries) <= limits.maximumPromptBytes then Some(entries) else None;
  }

  lemma Starts(limits: ContextLimits, items: seq<Candidate>)
    ensures StillToCome(limits, items, 0, [], 0)
  {
    assert items[0..] == items;
    if Entries(limits, items, 0).Some? {
      assert [] + Entries(limits, items, 0).value == Entries(limits, items, 0).value;
    }
  }

  lemma CutEntry(path: string, text: string, available: nat, cut: string)
    requires cut == DecodeIgnore(Encode(text)[..if available < Length(text) then available else Length(text)])
    ensures Entry(path, cut, Length(cut) < Length(text)) == EntryFor(path, text, available)
  {
    CutDecodesToFit(text, available);
    ShorterEncoding(text, Fit(text, available));
  }

  lemma Appends(limits: ContextLimits, items: seq<Candidate>, i: nat, done: seq<Entry>, total: nat, entry: Entry)
    requires i < |items| && StillToCome(limits, items, i, done, total)
    requires items[i].Readable? && Available(limits, total) > 0
    requires entry == EntryFor(items[i].path, items[i].text, Available(limits, total))
    ensures StillToCome(limits, items, i + 1, done + [entry], total + Length(entry.content))
  {
    hide EntryFor, Length, Available;
    assert items[i..][0] == items[i] && items[i..][1..] == items[i + 1..];
    match Entries(limits, items[i + 1..], total + Length(entry.content)) {
      case None =>
      case Some(rest) => assert done + ([entry] + rest) == (done + [entry]) + rest;
    }
  }

  lemma Stops(limits: ContextLimits, items: seq<Candidate>, i: nat, done: seq<Entry>, total: nat)
    requires i <= |items| && StillToCome(limits, items, i, done, total)
    requires i == |items| || (items[i].Readable? && Available(limits, total) <= 0)
    ensures Entries(limits, items, 0) == Some(done)
  {
    hide EntryFor, Length, Available;
    assert done + [] == done;
    if i < |items| {
      assert items[i..][0] == items[i];
    } else {
      assert items[i..] == [];
    }
  }
}
