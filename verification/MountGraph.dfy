/** Boot-time check of the sub-agent mount graph (core/agent/registry.py). */
module MountGraph {

  /** The declared agents, each with the codes it mounts. */
  type Specs = map<string, seq<string>>

  datatype Verdict = Accepted | SelfMount(code: string) | Circular(chain: seq<string>)

  predicate Mounts(specs: Specs, a: string, b: string) {
    a in specs && b in specs[a]
  }

  ghost predicate Walk(specs: Specs, w: seq<string>) {
    w != [] && forall i :: 0 <= i < |w| - 1 ==> Mounts(specs, w[i], w[i + 1])
  }

  /** A walk back to its start; a self-mount is the shortest one. Every agent on it mounts something, so is declared. */
  ghost predicate IsCycle(specs: Specs, w: seq<string>) {
    |w| >= 2 && Walk(specs, w) && w[0] == w[|w| - 1]
  }

  ghost predicate Distinct(w: seq<string>) {
    forall i, j :: 0 <= i < j < |w| ==> w[i] != w[j]
  }

  /** No walk from the end of the path ever comes back to the path or to itself. */
  ghost predicate Clear(specs: Specs, path: seq<string>) {
    path != [] && forall w :: Walk(specs, w) && w[0] == path[|path| - 1] ==> Distinct(path + w[1..])
  }

  /** The codes that a chain may still be extended with: the measure of the recursion. */
  function Unvisited(specs: Specs, path: seq<string>): set<string> {
    set code | code in specs && code !in path
  }

  /** The witness in a rejection. */
  ghost predicate Witnessed(specs: Specs, verdict: Verdict) {
    match verdict
    case Accepted => true
    case SelfMount(code) => IsCycle(specs, [code, code])
    case Circular(chain) =>
      && Walk(specs, chain)
      && exists j :: 0 <= j < |chain| && IsCycle(specs, chain[j..])
  }

  lemma UnvisitedShrinks(specs: Specs, path: seq<string>, code: string)
    requires code !in path
    ensures Unvisited(specs, path + [code]) <= Unvisited(specs, path)
    ensures code in specs ==> |Unvisited(specs, path + [code])| < |Unvisited(specs, path)|
    ensures code !in specs ==> Unvisited(specs, path + [code]) == Unvisited(specs, path)
  {
    var more, less := Unvisited(specs, path), Unvisited(specs, path + [code]);
    assert less <= more;
    if code in specs {
      assert code in more && code !in less;
      SubsetSize(less, more - {code});
    }
  }

  lemma {:induction false} SubsetSize(a: set<string>, b: set<string>)
    requires a <= b
    ensures |a| <= |b|
  {
    if a != {} {
      var x :| x in a;
      SubsetSize(a - {x}, b - {x});
    }
  }

  lemma WalkExtends(specs: Specs, path: seq<string>, mount: string)
    requires Walk(specs, path) && Mounts(specs, path[|path| - 1], mount)
    ensures Walk(specs, path + [mount])
  {
  }

  lemma TailIsWalk(specs: Specs, w: seq<string>, j: nat)
    requires Walk(specs, w) && j < |w|
    ensures Walk(specs, w[j..])
  {
  }

  lemma ClearStep(specs: Specs, path: seq<string>, code: string)
    requires Walk(specs, path) && Distinct(path) && path[|path| - 1] == code && code in specs
    requires forall k :: 0 <= k < |specs[code]| ==> specs[code][k] !in path && Clear(specs, path + [specs[code][k]])
    ensures Clear(specs, path)
  {
    forall w | Walk(specs, w) && w[0] == code
      ensures Distinct(path + w[1..])
    {
      if |w| >= 2 {
        assert Mounts(specs, w[0], w[1]);
        var k :| 0 <= k < |specs[code]| && specs[code][k] == w[1];
        TailIsWalk(specs, w, 1);
        var longer := path + [specs[code][k]];
        assert longer[|longer| - 1] == w[1..][0];
        assert Distinct(longer + w[1..][1..]);
        assert longer + w[1..][1..] == path + w[1..];
      } else {
        assert path + w[1..] == path;
      }
    }
  }

  lemma ClearLeaf(specs: Specs, path: seq<string>)
    requires path != [] && Distinct(path) && path[|path| - 1] !in specs
    ensures Clear(specs, path)
  {
    forall w | Walk(specs, w) && w[0] == path[|path| - 1]
      ensures Distinct(path + w[1..])
    {
      if |w| >= 2 { LongWalkStartsDeclared(specs, w); }
      assert |w| == 1 ==> path + w[1..] == path;
    }
  }

  lemma LongWalkStartsDeclared(specs: Specs, w: seq<string>)
    requires Walk(specs, w) && |w| >= 2
    ensures w[0] in specs
  {
    assert Mounts(specs, w[0], w[1]);
  }

  lemma CycleFound(specs: Specs, path: seq<string>, mount: string)
    requires Walk(specs, path) && Mounts(specs, path[|path| - 1], mount) && mount in path
    ensures Witnessed(specs, Circular(path + [mount]))
  {
    WalkExtends(specs, path, mount);
    var chain := path + [mount];
    var j :| 0 <= j < |path| && path[j] == mount;
    TailIsWalk(specs, chain, j);
    assert chain[j..][0] == mount && chain[j..][|chain[j..]| - 1] == mount;
    assert IsCycle(specs, chain[j..]);
  }

  /** Follows every chain of mounts from `code`; it ends because a chain never repeats a declared code. */
  method CheckSubagentChain(specs: Specs, code: string, path: seq<string>) returns (verdict: Verdict)
    requires Walk(specs, path) && Distinct(path) && path[|path| - 1] == code
    ensures verdict.Accepted? ==> Clear(specs, path)
    ensures Witnessed(specs, verdict)
    decreases |Unvisited(specs, path)|, if code in specs then 1 else 0
  {
    if code !in specs {
      ClearLeaf(specs, path);
      return Accepted;
    }
    var mounts := specs[code];
    for k := 0 to |mounts|
      invariant forall i :: 0 <= i < k ==> mounts[i] !in path && Clear(specs, path + [mounts[i]])
    {
      var mount := mounts[k];
      assert Mounts(specs, code, mount);
      if mount == code {
        return SelfMount(code);
      }
      if mount in path {
        CycleFound(specs, path, mount);
        return Circular(path + [mount]);
      }
      WalkExtends(specs, path, mount);
      UnvisitedShrinks(specs, path, mount);
      verdict := CheckSubagentChain(specs, mount, path + [mount]);
      if !verdict.Accepted? {
        return;
      }
    }
    ClearStep(specs, path, code);
    verdict := Accepted;
  }

  lemma ClearMeansNoCycle(specs: Specs)
    requires forall code :: code in specs ==> Clear(specs, [code])
    ensures forall w :: !IsCycle(specs, w)
  {
    forall w
      ensures !IsCycle(specs, w)
    {
      if |w| >= 2 && Walk(specs, w) {
        assert Mounts(specs, w[0], w[1]);
        assert [w[0]] + w[1..] == w;
        assert Distinct([w[0]] + w[1..]);
      }
    }
  }

  /** The declared agents are accepted exactly when their mounts have no cycle, self-mounts included. */
  method ValidateSubagentGraph(specs: Specs) returns (verdict: Verdict)
    ensures verdict.Accepted? <==> forall w :: !IsCycle(specs, w)
    ensures Witnessed(specs, verdict)
  {
    var todo := specs.Keys;
    while todo != {}
      invariant todo <= specs.Keys
      invariant forall code :: code in specs.Keys - todo ==> Clear(specs, [code])
      decreases |todo|
    {
      var code :| code in todo;
      todo := todo - {code};
      verdict := CheckSubagentChain(specs, code, [code]);
      if !verdict.Accepted? {
        WitnessIsCycle(specs, verdict);
        return;
      }
    }
    ClearMeansNoCycle(specs);
    verdict := Accepted;
  }

  lemma WitnessIsCycle(specs: Specs, verdict: Verdict)
    requires Witnessed(specs, verdict) && !verdict.Accepted?
    ensures exists w :: IsCycle(specs, w)
  {
  }
}
