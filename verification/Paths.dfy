/** Relative path texts and the component lists they denote. */
module Paths {
  type Path = seq<string>

  function Split(s: string): (parts: seq<string>)
    ensures parts != []
  {
    if s == "" then [""]
    else if s[0] == '/' then [""] + Split(s[1..])
    else
      var rest := Split(s[1..]);
      [[s[0]] + rest[0]] + rest[1..]
  }

  function Meaningful(parts: seq<string>): seq<string> {
    if parts == [] then []
    else if parts[0] == "" || parts[0] == "." then Meaningful(parts[1..])
    else [parts[0]] + Meaningful(parts[1..])
  }

  /** The components of a text: empty and "." parts do not count. */
  function Components(s: string): Path {
    Meaningful(Split(s))
  }

  function Join(p: Path): string {
    if p == [] then ""
    else if |p| == 1 then p[0]
    else p[0] + "/" + Join(p[1..])
  }

  function Normalize(s: string): (t: string)
    ensures |t| == |s|
    ensures forall i :: 0 <= i < |s| ==> t[i] == if s[i] == '\\' then '/' else s[i]
  {
    seq(|s|, i requires 0 <= i < |s| => if s[i] == '\\' then '/' else s[i])
  }

  predicate WindowsAbsolute(s: string) {
    || (|s| >= 3 && s[1] == ':' && s[2] in "/\\")
    || (|s| >= 2 && s[0] == '\\' && s[1] == '\\')
  }

  /** What `safe_relative_path` lets through. */
  predicate SafeRelative(s: string) {
    && s != ""
    && s[0] != '/'
    && !WindowsAbsolute(s)
    && ".." !in Components(Normalize(s))
    && '\0' !in s
  }

  /** A normalised text may still start at the root; such a destination escapes the workspace. */
  predicate Rooted(s: string) {
    s != "" && s[0] == '/'
  }

  predicate WellFormedPart(part: string) {
    part != "" && part != "." && part != ".." && '/' !in part && '\\' !in part
  }

  /** A path of an ordinary file inside the workspace. */
  predicate WellFormed(p: Path) {
    p != [] && forall i :: 0 <= i < |p| ==> WellFormedPart(p[i])
  }

  /** A text spelled the way Git lists the file it denotes. */
  predicate Canonical(s: string) {
    WellFormed(Components(s)) && s == Join(Components(s))
  }

  predicate IsPrefix(prefix: Path, p: Path) {
    prefix <= p
  }

  function StripTrailing(s: string): string {
    if s != "" && s[|s| - 1] == '/' then StripTrailing(s[..|s| - 1]) else s
  }

  predicate MatchesPrefix(path: string, prefix: string) {
    var stripped := StripTrailing(Normalize(prefix));
    stripped == "" || IsPrefix(Components(stripped), Components(Normalize(path)))
  }

  predicate AllowedPath(path: string, allowed: seq<string>, forbidden: seq<string>) {
    && (allowed == [] || exists i :: 0 <= i < |allowed| && MatchesPrefix(path, allowed[i]))
    && forall i :: 0 <= i < |forbidden| ==> !MatchesPrefix(path, forbidden[i])
  }

  lemma {:induction false} SplitOnePart(part: string)
    requires '/' !in part
    ensures Split(part) == [part]
  {
    if part != "" {
      SplitOnePart(part[1..]);
      assert [part[0]] + part[1..] == part;
    }
  }

  lemma {:induction false} SplitFirstPart(part: string, rest: string)
    requires '/' !in part
    ensures Split(part + "/" + rest) == [part] + Split(rest)
  {
    if part == "" {
      assert part + "/" + rest == "/" + rest;
      assert ("/" + rest)[1..] == rest;
    } else {
      SplitFirstPart(part[1..], rest);
      assert (part + "/" + rest)[1..] == part[1..] + "/" + rest;
      assert [part[0]] + part[1..] == part;
    }
  }

  lemma {:induction false} SplitOfJoin(p: Path)
    requires WellFormed(p)
    ensures Split(Join(p)) == p
  {
    assert WellFormedPart(p[0]);
    if |p| == 1 {
      SplitOnePart(p[0]);
    } else {
      SplitFirstPart(p[0], Join(p[1..]));
      SplitOfJoin(p[1..]);
    }
  }

  lemma {:induction false} MeaningfulOfWellFormed(p: Path)
    requires forall i :: 0 <= i < |p| ==> WellFormedPart(p[i])
    ensures Meaningful(p) == p
  {
    if p != [] {
      assert WellFormedPart(p[0]);
      MeaningfulOfWellFormed(p[1..]);
    }
  }

  /** Listing a path and reading the listing back is the identity. */
  lemma ComponentsOfJoin(p: Path)
    requires WellFormed(p)
    ensures Components(Join(p)) == p && Canonical(Join(p))
  {
    SplitOfJoin(p);
    MeaningfulOfWellFormed(p);
  }

  lemma {:induction false} JoinHasNoBackslash(p: Path)
    requires forall i :: 0 <= i < |p| ==> WellFormedPart(p[i])
    ensures '\\' !in Join(p)
  {
    if p != [] {
      assert WellFormedPart(p[0]);
      JoinHasNoBackslash(p[1..]);
    }
  }

  lemma NormalizeCanonical(s: string)
    requires Canonical(s)
    ensures Normalize(s) == s
  {
    JoinHasNoBackslash(Components(s));
  }

  lemma {:induction false} SplitParts(s: string, part: string, c: char)
    requires part in Split(s) && c in part
    ensures c != '/' && c in s
  {
    if s == "" {
    } else if s[0] == '/' {
      assert part != "" && part in Split(s[1..]);
      SplitParts(s[1..], part, c);
    } else {
      var rest := Split(s[1..]);
      if part == [s[0]] + rest[0] {
        if c != s[0] {
          SplitParts(s[1..], rest[0], c);
        }
      } else {
        assert part in rest[1..];
        SplitParts(s[1..], part, c);
      }
    }
  }

  lemma {:induction false} MeaningfulParts(parts: seq<string>, part: string)
    requires part in Meaningful(parts)
    ensures part in parts && part != "" && part != "."
  {
    if parts[0] == "" || parts[0] == "." || part != parts[0] {
      MeaningfulParts(parts[1..], part);
    }
  }

  /** The components of a safe path are those of a file inside the workspace, unless there are none. */
  lemma SafeComponents(s: string)
    requires SafeRelative(s) && Components(Normalize(s)) != []
    ensures WellFormed(Components(Normalize(s)))
  {
    var p := Components(Normalize(s));
    forall i | 0 <= i < |p| ensures WellFormedPart(p[i]) {
      MeaningfulParts(Split(Normalize(s)), p[i]);
      forall c | c in p[i] ensures c != '/' && c != '\\' {
        SplitParts(Normalize(s), p[i], c);
      }
    }
  }

  // What the texts denote, spelt out.

  /** The parts of a text: joined by slashes they are the text, and no part has a slash. */
  lemma {:induction false} SplitIs(s: string)
    ensures Join(Split(s)) == s && forall part :: part in Split(s) ==> '/' !in part
  {
    if s == "" {
    } else if s[0] == '/' {
      SplitIs(s[1..]);
      assert Join(Split(s)) == "" + "/" + Join(Split(s[1..])) by { assert Split(s)[1..] == Split(s[1..]); }
    } else {
      SplitIs(s[1..]);
      var rest := Split(s[1..]);
      assert Split(s)[1..] == rest[1..];
      if |rest| > 1 {
        assert Join(Split(s)) == [s[0]] + rest[0] + "/" + Join(rest[1..]);
        assert s[1..] == rest[0] + "/" + Join(rest[1..]);
      }
      assert s == [s[0]] + s[1..];
    }
  }

  /** Empty and "." parts do not count; every other part does, in its place. */
  lemma {:induction false} MeaningfulIs(parts: seq<string>, part: string)
    ensures Meaningful([]) == []
    ensures Meaningful(parts + [part]) == Meaningful(parts) + if part == "" || part == "." then [] else [part]
  {
    if parts == [] {
      assert parts + [part] == [part];
    } else {
      assert (parts + [part])[1..] == parts[1..] + [part];
      MeaningfulIs(parts[1..], part);
    }
  }

  lemma {:induction false} SplitTrailing(s: string)
    ensures Split(s + "/") == Split(s) + [""]
  {
    if s == "" {
      assert Split("/") == [""] + Split("/"[1..]);
    } else {
      SplitTrailing(s[1..]);
      assert (s + "/")[1..] == s[1..] + "/";
      assert Split(s[1..] + "/")[1..] == Split(s[1..])[1..] + [""];
    }
  }

  lemma {:induction false} StrippedComponents(s: string)
    ensures Components(StripTrailing(s)) == Components(s)
  {
    if s != "" && s[|s| - 1] == '/' {
      var shorter := s[..|s| - 1];
      assert s == shorter + "/";
      SplitTrailing(shorter);
      MeaningfulIs(Split(shorter), "");
      StrippedComponents(shorter);
    }
  }

  /** The path lies at or below the prefix, component by component. */
  predicate Under(path: string, prefix: string) {
    Components(Normalize(prefix)) <= Components(Normalize(path))
  }

  lemma MatchesIffUnder(path: string, prefix: string)
    ensures MatchesPrefix(path, prefix) <==> Under(path, prefix)
  {
    StrippedComponents(Normalize(prefix));
  }

  /** A relative text that cannot leave the workspace: not absolute, on no drive or share, no step upwards. */
  predicate StaysInside(path: string) {
    && path != "" && path[0] != '/' && path[0] != '\\' && '\0' !in path
    && !(|path| >= 3 && path[1] == ':' && (path[2] == '/' || path[2] == '\\'))
    && forall part :: part in Components(Normalize(path)) ==> part != ".."
  }

  lemma SafeIffInside(s: string)
    ensures SafeRelative(s) && !Rooted(Normalize(s)) <==> StaysInside(s)
  {
    hide Components;
  }
}
