/**
 * Directory ownership: the configuration validator (src/vcompany/models/config.py) and the
 * scope check of plans (src/vcompany/strategist/plan_reviewer.py), which normalise directories
 * differently and together must make ownership exclusive.
 */
module Ownership {

  datatype Agent = Agent(id: string, owns: seq<string>)

  /** A normalised directory and its owner. */
  datatype Claim = Claim(dir: string, owner: string)

  /** Without its trailing slashes. */
  function Stripped(d: string): (r: string)
    ensures r <= d && forall i :: |r| <= i < |d| ==> d[i] == '/'
    ensures r != [] ==> r[|r| - 1] != '/'
  {
    if d != [] && d[|d| - 1] == '/' then Stripped(d[..|d| - 1]) else d
  }

  /** The validator's normal form: exactly one trailing slash. */
  function Normalized(d: string): string {
    Stripped(d) + "/"
  }

  /** The scope check's normal form: at least one trailing slash. */
  function Scoped(d: string): string {
    if d != [] && d[|d| - 1] == '/' then d else d + "/"
  }

  /** One is a prefix of the other. */
  predicate Comparable(a: string, b: string) {
    a <= b || b <= a
  }

  function ClaimsOf(a: Agent): (r: seq<Claim>)
    ensures |r| == |a.owns| && forall i :: 0 <= i < |r| ==> r[i] == Claim(Normalized(a.owns[i]), a.id)
  {
    seq(|a.owns|, i requires 0 <= i < |a.owns| => Claim(Normalized(a.owns[i]), a.id))
  }

  /** All claims of a configuration, in order. */
  function Claims(agents: seq<Agent>): seq<Claim> {
    if agents == [] then [] else Claims(agents[..|agents| - 1]) + ClaimsOf(agents[|agents| - 1])
  }

  ghost predicate DistinctIds(agents: seq<Agent>) {
    forall i, j :: 0 <= i < j < |agents| ==> agents[i].id != agents[j].id
  }

  ghost predicate Disjoint(claims: seq<Claim>) {
    forall i, j :: 0 <= i < j < |claims| ==> !Comparable(claims[i].dir, claims[j].dir)
  }

  datatype Verdict = Accepted | DuplicateId(id: string) | Overlap(claim: Claim, existing: Claim)

  lemma {:induction false} ClaimsPrefix(agents: seq<Agent>, i: nat)
    requires i < |agents|
    ensures Claims(agents[..i]) + ClaimsOf(agents[i]) <= Claims(agents)
    ensures Claims(agents[..i + 1]) == Claims(agents[..i]) + ClaimsOf(agents[i])
  {
    assert agents[..i + 1][..i] == agents[..i];
    if i == |agents| - 1 {
      assert agents[..i + 1] == agents;
    } else {
      var front := agents[..|agents| - 1];
      ClaimsPrefix(front, i);
      assert front[..i] == agents[..i];
    }
  }

  /** The validator: ids first, then every directory against all earlier ones. */
  method Validate(agents: seq<Agent>) returns (v: Verdict)
    ensures v.Accepted? <==> DistinctIds(agents) && Disjoint(Claims(agents))
    ensures v.DuplicateId? <==> !DistinctIds(agents)
    ensures v.DuplicateId? ==> exists i, j :: 0 <= i < j < |agents| && agents[i].id == agents[j].id == v.id
    ensures v.Overlap? ==> Clashes(Claims(agents), v.claim, v.existing)
  {
    v := CheckIds(agents);
    if v.Accepted? {
      v := CheckDirectories(agents);
    }
  }

  method CheckIds(agents: seq<Agent>) returns (v: Verdict)
    ensures v.Accepted? <==> DistinctIds(agents)
    ensures v.Accepted? || v.DuplicateId?
    ensures v.DuplicateId? ==> exists i, j :: 0 <= i < j < |agents| && agents[i].id == agents[j].id == v.id
  {
    var seen: set<string> := {};
    for i := 0 to |agents|
      invariant seen == set k | 0 <= k < i :: agents[k].id
      invariant forall k, l :: 0 <= k < l < i ==> agents[k].id != agents[l].id
    {
      if agents[i].id in seen {
        return DuplicateId(agents[i].id);
      }
      seen := seen + {agents[i].id};
    }
    return Accepted;
  }

  /** A claim and an earlier one that it overlaps. */
  ghost predicate Clashes(claims: seq<Claim>, claim: Claim, existing: Claim) {
    && Comparable(claim.dir, existing.dir)
    && exists i, j :: 0 <= i < j < |claims| && claims[j] == claim && claims[i] == existing
  }

  method CheckDirectories(agents: seq<Agent>) returns (v: Verdict)
    ensures v.Accepted? <==> Disjoint(Claims(agents))
    ensures v.Accepted? || v.Overlap?
    ensures v.Overlap? ==> Clashes(Claims(agents), v.claim, v.existing)
  {
    var all: seq<Claim> := [];
    for i := 0 to |agents|
      invariant all == Claims(agents[..i]) && Disjoint(all)
    {
      ClaimsPrefix(agents, i);
      ghost var mine := ClaimsOf(agents[i]);
      ghost var before := all;
      for j := 0 to |agents[i].owns|
        invariant all == before + mine[..j] && Disjoint(all)
      {
        var claim := Claim(Normalized(agents[i].owns[j]), agents[i].id);
        var clash := FirstClash(all, claim);
        ExtendPrefix(before, mine, j, Claims(agents));
        if clash < |all| {
          ClashFound(all, claim, clash, Claims(agents));
          return Overlap(claim, all[clash]);
        }
        all := all + [claim];
      }
      assert mine[..|agents[i].owns|] == mine;
    }
    assert agents[..|agents|] == agents;
    return Accepted;
  }

  lemma {:induction false} ExtendPrefix(before: seq<Claim>, mine: seq<Claim>, j: nat, claims: seq<Claim>)
    requires before + mine <= claims && j < |mine|
    ensures before + mine[..j + 1] == before + mine[..j] + [mine[j]] <= claims
  {
    assert mine[..j + 1] == mine[..j] + [mine[j]];
    assert before + mine[..j + 1] == (before + mine)[..|before| + j + 1] == claims[..|before| + j + 1];
  }

  lemma {:induction false} ClashFound(all: seq<Claim>, claim: Claim, clash: nat, claims: seq<Claim>)
    requires clash < |all| && Comparable(all[clash].dir, claim.dir) && all + [claim] <= claims
    ensures Clashes(claims, claim, all[clash]) && !Disjoint(claims)
  {
    assert claims[|all|] == (all + [claim])[|all|] && claims[clash] == (all + [claim])[clash];
  }

  /** The first existing claim that overlaps, or the number of claims. */
  method FirstClash(all: seq<Claim>, claim: Claim) returns (k: nat)
    ensures k <= |all|
    ensures forall i :: 0 <= i < k ==> !Comparable(all[i].dir, claim.dir)
    ensures k < |all| ==> Comparable(all[k].dir, claim.dir)
  {
    k := 0;
    while k < |all| && !(all[k].dir <= claim.dir || claim.dir <= all[k].dir)
      invariant k <= |all|
      invariant forall i :: 0 <= i < k ==> !Comparable(all[i].dir, claim.dir)
    {
      k := k + 1;
    }
  }

  // The scope check

  predicate Covers(d: string, file: string) {
    Scoped(d) <= file
  }

  predicate InScope(a: Agent, file: string) {
    exists i :: 0 <= i < |a.owns| && Covers(a.owns[i], file)
  }

  datatype ScopeResult = NoFiles | UnknownAgent | Outside(files: seq<string>) | Aligned {
    predicate Passes() {
      NoFiles? || Aligned?
    }
  }

  /** The files that lie outside the agent's directories, in order. */
  function OutsideFiles(a: Agent, files: seq<string>): seq<string> {
    if files == [] then []
    else OutsideFiles(a, files[..|files| - 1]) + if InScope(a, files[|files| - 1]) then [] else [files[|files| - 1]]
  }

  lemma {:induction false} OutsideMember(a: Agent, files: seq<string>, file: string)
    ensures file in OutsideFiles(a, files) <==> file in files && !InScope(a, file)
  {
    if files != [] {
      var front := files[..|files| - 1];
      OutsideMember(a, front, file);
      assert files == front + [files[|files| - 1]];
    }
  }

  /** The first agent with this id, or the number of agents. */
  function IndexOf(agents: seq<Agent>, id: string, from: nat := 0): (k: nat)
    requires from <= |agents|
    ensures from <= k <= |agents| && (k < |agents| ==> agents[k].id == id)
    ensures forall i :: from <= i < k ==> agents[i].id != id
    decreases |agents| - from
  {
    if from < |agents| && agents[from].id != id then IndexOf(agents, id, from + 1) else from
  }

  /** What the scope check answers for an agent and the files its plan modifies. */
  function ScopeOf(agents: seq<Agent>, id: string, files: seq<string>): ScopeResult {
    var k := IndexOf(agents, id);
    if files == [] then NoFiles
    else if k == |agents| then UnknownAgent
    else if OutsideFiles(agents[k], files) == [] then Aligned
    else Outside(OutsideFiles(agents[k], files))
  }

  method ScopeCheck(agents: seq<Agent>, id: string, files: seq<string>) returns (r: ScopeResult)
    ensures r == ScopeOf(agents, id, files)
  {
    if files == [] {
      return NoFiles;
    }
    var k := 0;
    while k < |agents| && agents[k].id != id
      invariant k <= |agents| && IndexOf(agents, id, k) == IndexOf(agents, id)
    {
      k := k + 1;
    }
    if k == |agents| {
      return UnknownAgent;
    }
    var outside := FilesOutside(agents[k], files);
    r := if outside == [] then Aligned else Outside(outside);
  }

  method FilesOutside(a: Agent, files: seq<string>) returns (outside: seq<string>)
    ensures outside == OutsideFiles(a, files)
  {
    outside := [];
    for i := 0 to |files|
      invariant outside == OutsideFiles(a, files[..i])
    {
      assert files[..i + 1][..i] == files[..i];
      if !InScope(a, files[i]) {
        outside := outside + [files[i]];
      }
    }
    assert files[..|files|] == files;
  }

  /** The names of the failed checks; a plan is approved when there are none. */
  function FailedChecks(agents: seq<Agent>, id: string, files: seq<string>, ready: bool, novel: bool): seq<string> {
    (if ScopeOf(agents, id, files).Passes() then [] else ["scope"])
    + (if ready then [] else ["dependency"])
    + (if novel then [] else ["duplicate"])
  }

  /** A directory covers what follows it and a slash; one written with a slash brings its own. */
  lemma {:induction false} CoversMeans(d: string, file: string)
    ensures Covers(d, file) <==>
            && d <= file
            && ((d != [] && d[|d| - 1] == '/') || (|file| > |d| && file[|d|] == '/'))
  {
    if d <= file && |file| > |d| && file[|d|] == '/' {
      assert d + "/" == file[..|d| + 1];
    }
    if d + "/" <= file {
      assert (d + "/")[..|d|] == d && (d + "/")[|d|] == '/';
    }
  }

  lemma {:induction false} NoneOutside(a: Agent, files: seq<string>)
    ensures OutsideFiles(a, files) == [] <==> forall f :: f in files ==> InScope(a, f)
  {
    if OutsideFiles(a, files) == [] {
      forall f | f in files
        ensures InScope(a, f)
      {
        OutsideMember(a, files, f);
      }
    } else {
      OutsideMember(a, files, OutsideFiles(a, files)[0]);
    }
  }

  /**
   * A plan without files passes; one with files passes exactly when its agent is known and all of them are
   * in its scope, and otherwise the files named are exactly those that are not.
   */
  lemma {:induction false} ScopeIsExact(agents: seq<Agent>, id: string, files: seq<string>, k: nat)
    requires k <= |agents| && forall i :: 0 <= i < k ==> agents[i].id != id
    requires k < |agents| ==> agents[k].id == id
    ensures var r := ScopeOf(agents, id, files);
            && (r.NoFiles? <==> files == [])
            && (r.UnknownAgent? <==> files != [] && k == |agents|)
            && (r.Aligned? <==> files != [] && k < |agents| && forall f :: f in files ==> InScope(agents[k], f))
            && (r.Outside? ==>
                  k < |agents| && forall f :: f in r.files <==> f in files && !InScope(agents[k], f))
  {
    var first := IndexOf(agents, id);
    assert first == k;
    if k < |agents| {
      NoneOutside(agents[k], files);
      forall f
        ensures f in OutsideFiles(agents[k], files) <==> f in files && !InScope(agents[k], f)
      {
        OutsideMember(agents[k], files, f);
      }
    }
  }

  /** A plan is approved exactly when its files are in scope, its dependencies are ready and it is no duplicate. */
  lemma {:induction false} ApprovedIff(agents: seq<Agent>, id: string, files: seq<string>, ready: bool, novel: bool,
                                       k: nat)
    requires k <= |agents| && forall i :: 0 <= i < k ==> agents[i].id != id
    requires k < |agents| ==> agents[k].id == id
    ensures FailedChecks(agents, id, files, ready, novel) == []
            <==> && ready && novel
                 && (files == [] || (k < |agents| && forall f :: f in files ==> InScope(agents[k], f)))
  {
    ScopeIsExact(agents, id, files, k);
  }

  /** A plan that is not approved is told exactly which checks failed. */
  lemma {:induction false} ChecksNamed(agents: seq<Agent>, id: string, files: seq<string>, ready: bool, novel: bool)
    ensures var failed := FailedChecks(agents, id, files, ready, novel);
            && ("scope" in failed <==> ScopeOf(agents, id, files).UnknownAgent? || ScopeOf(agents, id, files).Outside?)
            && ("dependency" in failed <==> !ready) && ("duplicate" in failed <==> !novel)
            && forall name :: name in failed ==> name in ["scope", "dependency", "duplicate"]
  {
    assert |"scope"| == 5 && |"dependency"| == 10 && |"duplicate"| == 9;
  }

  // Exclusiveness

  /** The two normal forms agree up to extra slashes: what is in scope is in the validator's directory. */
  lemma {:induction false} NormalFormsAgree(d: string)
    ensures Normalized(d) <= Scoped(d)
  {
    var s := Stripped(d);
    if s == d {
      assert Scoped(d) == d + "/";
    } else {
      assert d[|s|] == '/';
      assert Scoped(d) == d;
    }
  }

  lemma {:induction false} PrefixesComparable(a: string, b: string, s: string)
    requires a <= s && b <= s
    ensures Comparable(a, b)
  {
    if |a| <= |b| {
      assert a == s[..|a|] == b[..|a|];
    } else {
      assert b == s[..|b|] == a[..|b|];
    }
  }

  lemma {:induction false} ClaimIndex(agents: seq<Agent>, i: nat, d: nat) returns (k: nat)
    requires i < |agents| && d < |agents[i].owns|
    ensures k == |Claims(agents[..i])| + d
    ensures k < |Claims(agents[..i + 1])| <= |Claims(agents)|
    ensures Claims(agents)[k] == Claim(Normalized(agents[i].owns[d]), agents[i].id)
  {
    ClaimsPrefix(agents, i);
    k := |Claims(agents[..i])| + d;
    assert (Claims(agents[..i]) + ClaimsOf(agents[i]))[k] == ClaimsOf(agents[i])[d];
  }

  lemma {:induction false} ClaimsGrow(agents: seq<Agent>, i: nat, j: nat)
    requires i <= j <= |agents|
    ensures |Claims(agents[..i])| <= |Claims(agents[..j])|
  {
    if i < j {
      ClaimsGrow(agents, i, j - 1);
      ClaimsPrefix(agents, j - 1);
    }
  }

  /** Directories that let the same file through overlap in the validator's eyes. */
  lemma {:induction false} CoveredComparable(d: string, e: string, file: string)
    requires Covers(d, file) && Covers(e, file)
    ensures Comparable(Normalized(d), Normalized(e))
  {
    NormalFormsAgree(d);
    NormalFormsAgree(e);
    PrefixOfPrefix(Normalized(d), Scoped(d), file);
    PrefixOfPrefix(Normalized(e), Scoped(e), file);
    PrefixesComparable(Normalized(d), Normalized(e), file);
  }

  lemma {:induction false} ClaimsApart(agents: seq<Agent>, i: nat, j: nat, di: nat, dj: nat)
    requires Disjoint(Claims(agents)) && i < j < |agents| && di < |agents[i].owns| && dj < |agents[j].owns|
    ensures !Comparable(Normalized(agents[i].owns[di]), Normalized(agents[j].owns[dj]))
  {
    var ki := ClaimIndex(agents, i, di);
    var kj := ClaimIndex(agents, j, dj);
    ClaimsGrow(agents, i + 1, j);
    assert ki < kj;
  }

  /** In an accepted configuration no file is in the scope of two agents. */
  lemma {:induction false} ScopesExclusive(agents: seq<Agent>, i: nat, j: nat, file: string)
    requires Disjoint(Claims(agents)) && i < j < |agents|
    ensures !(InScope(agents[i], file) && InScope(agents[j], file))
  {
    if InScope(agents[i], file) && InScope(agents[j], file) {
      var di :| 0 <= di < |agents[i].owns| && Covers(agents[i].owns[di], file);
      var dj :| 0 <= dj < |agents[j].owns| && Covers(agents[j].owns[dj], file);
      CoveredComparable(agents[i].owns[di], agents[j].owns[dj], file);
      ClaimsApart(agents, i, j, di, dj);
    }
  }

  lemma {:induction false} PrefixOfPrefix(a: string, b: string, c: string)
    requires a <= b <= c
    ensures a <= c
  {
    assert a == b[..|a|] == c[..|a|];
  }

  /** Plans approved for two different agents of an accepted configuration share no file. */
  lemma {:induction false} ApprovedPlansDisjoint(agents: seq<Agent>, a: string, b: string,
                                                 filesA: seq<string>, filesB: seq<string>,
                                                 readyA: bool, readyB: bool, novelA: bool, novelB: bool)
    requires Disjoint(Claims(agents)) && a != b
    requires FailedChecks(agents, a, filesA, readyA, novelA) == []
    requires FailedChecks(agents, b, filesB, readyB, novelB) == []
    ensures forall f :: !(f in filesA && f in filesB)
  {
    var i, j := IndexOf(agents, a), IndexOf(agents, b);
    forall f | f in filesA && f in filesB
      ensures false
    {
      assert agents[i].id != agents[j].id;
      OutsideMember(agents[i], filesA, f);
      OutsideMember(agents[j], filesB, f);
      if i < j {
        ScopesExclusive(agents, i, j, f);
      } else {
        ScopesExclusive(agents, j, i, f);
      }
    }
  }

  /**
   * Two directories let a common file through exactly when their scope-check forms are comparable.
   * For directories written with at most one trailing slash that is the validator's own test, so
   * it then refuses only real conflicts.
   */
  lemma {:induction false} RefusalIffSharedFile(d: string, e: string)
    ensures Comparable(Scoped(d), Scoped(e)) <==> exists f: string :: Covers(d, f) && Covers(e, f)
    ensures Normalized(d) == Scoped(d) <==> |d| - |Stripped(d)| <= 1
    ensures |d| - |Stripped(d)| <= 1 && |e| - |Stripped(e)| <= 1 ==>
              (Comparable(Normalized(d), Normalized(e)) <==> exists f: string :: Covers(d, f) && Covers(e, f))
  {
    NormalFormsAgree(d);
    NormalFormsAgree(e);
    var longer := if |Scoped(d)| <= |Scoped(e)| then Scoped(e) else Scoped(d);
    if Comparable(Scoped(d), Scoped(e)) {
      assert Covers(d, longer) && Covers(e, longer);
    }
    if f: string :| Covers(d, f) && Covers(e, f) {
      PrefixesComparable(Scoped(d), Scoped(e), f);
    }
  }

  /** With a doubled slash the validator also refuses directories that no file could share. */
  lemma {:induction false} DoubledSlashRefused(f: string)
    ensures Comparable(Normalized("a//"), Normalized("a/b"))
    ensures !(Covers("a//", f) && Covers("a/b", f))
  {
    assert Stripped("a") == "a" && Stripped("a/b") == "a/b";
    assert "a//"[..2] == "a/" && "a/"[..1] == "a";
    assert Stripped("a//") == Stripped("a/") == Stripped("a");
    if Covers("a//", f) && Covers("a/b", f) {
      assert false;
    }
  }
}
