/**
 * Locating the backend CLI script: the first candidate install location that
 * exists, in order, or else the bare command name left to the search path.
 */
module Locator {
  /** The name used when no candidate exists. */
  const Fallback := "cozo-memory"

  /** The candidate locations: `dist/cli.js` under the dashboard's install root, then under the working directory. */
  function Candidates(installRoot: string, cwd: string): (r: seq<string>)
    ensures |r| == 2
    ensures |r[0]| == |installRoot| + 12 && r[0][..|installRoot|] == installRoot && r[0][|installRoot|..] == "/dist/cli.js"
    ensures |r[1]| == |cwd| + 12 && r[1][..|cwd|] == cwd && r[1][|cwd|..] == "/dist/cli.js"
  {
    [installRoot + "/dist/cli.js", cwd + "/dist/cli.js"]
  }

  /** First candidate for which `present` holds, else the fallback name. */
  function Locate(candidates: seq<string>, present: string -> bool): (r: string)
    ensures r == Fallback || (r in candidates && present(r))
  {
    if |candidates| == 0 then Fallback
    else if present(candidates[0]) then candidates[0]
    else Locate(candidates[1..], present)
  }

  /** When some candidate exists, the result is the earliest existing one. */
  lemma {:induction false} LocateFirstMatch(candidates: seq<string>, present: string -> bool, k: nat)
    requires k < |candidates| && present(candidates[k])
    ensures exists i :: 0 <= i <= k && Locate(candidates, present) == candidates[i]
                        && present(candidates[i])
                        && forall j :: 0 <= j < i ==> !present(candidates[j])
  {
    if !present(candidates[0]) {
      LocateFirstMatch(candidates[1..], present, k - 1);
      var i :| 0 <= i <= k - 1 && Locate(candidates[1..], present) == candidates[1..][i]
               && present(candidates[1..][i])
               && forall j :: 0 <= j < i ==> !present(candidates[1..][j]);
      assert forall j :: 0 <= j < i + 1 ==> !present(candidates[j]) by {
        forall j | 0 <= j < i + 1 ensures !present(candidates[j]) {
          if j > 0 { assert candidates[j] == candidates[1..][j - 1]; }
        }
      }
    }
  }

  /** When no candidate exists, the fallback name is used. */
  lemma {:induction false} LocateFallback(candidates: seq<string>, present: string -> bool)
    requires forall i :: 0 <= i < |candidates| ==> !present(candidates[i])
    ensures Locate(candidates, present) == Fallback
  {
    if |candidates| > 0 {
      assert forall i :: 0 <= i < |candidates| - 1 ==> !present(candidates[1..][i]) by {
        forall i | 0 <= i < |candidates| - 1 ensures !present(candidates[1..][i]) {
          assert candidates[1..][i] == candidates[i + 1];
        }
      }
      LocateFallback(candidates[1..], present);
    }
  }

  /** The search loop of the dashboard's start-up: return the first existing candidate, else the fallback. */
  method FindCliPath(candidates: seq<string>, present: string -> bool) returns (path: string)
    ensures path == Locate(candidates, present)
  {
    var i := 0;
    while i < |candidates|
      invariant 0 <= i <= |candidates|
      invariant Locate(candidates[i..], present) == Locate(candidates, present)
    {
      if present(candidates[i]) {
        return candidates[i];
      }
      assert candidates[i..][1..] == candidates[i + 1..];
      i := i + 1;
    }
    return Fallback;
  }
}
