/** Per-path source records and the helpers the resolver uses on them. */
module Common {
  import opened Errors
  import opened Strings

  /** A link handler creates `newname` as a link to `oldname` and reports
      the error it met, if any. */
  type LinkHandler = (string, Joined) -> Option<Error>

  /** One source tree's contribution to a farm path: the farm path, the full
      path in the source tree, and whether it is a (real) directory. */
  datatype SourceInfo = SourceInfo(path: string, source: string, isDir: bool)

  /** The records of one farm path, in source order. */
  type SourceInfoS = seq<SourceInfo>

  /** Some record satisfies `f`; false on an empty group. */
  function Any(s: SourceInfoS, f: SourceInfo -> bool): (r: bool)
    ensures r <==> exists i :: 0 <= i < |s| && f(s[i])
  {
    if s == [] then false
    else if f(s[0]) then true
    else Any(s[1..], f)
  }

  /** Every record satisfies `f`; true on an empty group. */
  function All(s: SourceInfoS, f: SourceInfo -> bool): (r: bool)
    ensures r <==> forall i :: 0 <= i < |s| ==> f(s[i])
  {
    if s == [] then true
    else if !f(s[0]) then false
    else All(s[1..], f)
  }

  /** The origin paths of a group, in group order. */
  function SourceList(s: SourceInfoS): (r: seq<string>)
    ensures |r| == |s|
    ensures forall i :: 0 <= i < |s| ==> r[i] == s[i].source
  {
    if s == [] then [] else [s[0].source] + SourceList(s[1..])
  }

  /** sourceInfoS.Sources: collects the origin paths by appending. */
  method Sources(s: SourceInfoS) returns (sources: seq<string>)
    ensures |sources| == |s|
    ensures forall i :: 0 <= i < |s| ==> sources[i] == s[i].source
  {
    sources := [];
    for i := 0 to |s|
      invariant |sources| == i
      invariant forall j :: 0 <= j < i ==> sources[j] == s[j].source
    {
      sources := sources + [s[i].source];
    }
  }

  /** The predicate the resolver hands to Any and All. */
  function SourceInfoIsDir(s: SourceInfo): (r: bool)
    ensures r <==> s.isDir
  {
    s.isDir
  }

  /** On a non-empty group, All implies Any: so a group for which Any holds
      and All does not is one that mixes both kinds of record. */
  lemma AllImpliesAny(s: SourceInfoS, f: SourceInfo -> bool)
    requires |s| > 0 && All(s, f)
    ensures Any(s, f)
  {
    assert f(s[0]);
  }

  /** The three outcomes of Any/All on a group, read as facts about records. */
  lemma AnyAllCases(s: SourceInfoS, f: SourceInfo -> bool)
    requires |s| > 0
    ensures Any(s, f) && All(s, f) <==> forall i :: 0 <= i < |s| ==> f(s[i])
    ensures Any(s, f) && !All(s, f) <==>
              (exists i :: 0 <= i < |s| && f(s[i])) && (exists j :: 0 <= j < |s| && !f(s[j]))
    ensures !Any(s, f) <==> forall i :: 0 <= i < |s| ==> !f(s[i])
  {
    if All(s, f) {
      AllImpliesAny(s, f);
    }
  }
}
