/**
 * `FrameAggregateError`: the error a root frame's `wait_done` raises when the root or any of
 * its sub-frames failed.  It keeps its three arguments unchanged and builds a message that
 * names the root and lists one "name: TypeName" part per failed frame, the root first.
 */
module AggregateError {
  import opened Wrappers
  import opened Errors

  /** A sub-frame error map in iteration (insertion) order. */
  type SubErrors = seq<(string, Exc)>

  datatype FrameAggregateError = FrameAggregateError(
    rootFrameName: string,
    rootFrameError: Option<Exc>,
    subFrameErrors: SubErrors,
    message: string)

  /** One entry of the list: the frame's name and its error's class name. */
  function Part(name: string, e: Exc): string {
    name + ": " + e.typeName
  }

  /** The fixed text in front of the list. */
  function Header(rootName: string): string {
    "The root frame '" + rootName + "' has terminated with errors.\nThe following frames raised errors:\n  "
  }

  /** `sep.join(ps)`. */
  function Join(ps: seq<string>, sep: string): string
    decreases |ps|
  {
    if |ps| == 0 then ""
    else if |ps| == 1 then ps[0]
    else ps[0] + sep + Join(ps[1..], sep)
  }

  /** The parts: the root's first when it failed, then one per sub-frame error, in order. */
  function Parts(rootName: string, rootError: Option<Exc>, subs: SubErrors): seq<string> {
    (if rootError.Some? then [Part(rootName, rootError.value)] else [])
      + seq(|subs|, i requires 0 <= i < |subs| => Part(subs[i].0, subs[i].1))
  }

  /** The error as constructed from its three arguments. */
  function Build(rootName: string, rootError: Option<Exc>, subs: SubErrors): (r: FrameAggregateError)
    ensures r.rootFrameName == rootName && r.rootFrameError == rootError && r.subFrameErrors == subs
    ensures Header(rootName) <= r.message
    ensures rootError.None? && subs == [] <==> r.message == Header(rootName)
  {
    FrameAggregateError(rootName, rootError, subs, Header(rootName) + Join(Parts(rootName, rootError, subs), ", "))
  }

  /** `FrameAggregateError.__init__`: the parts are appended one by one, then joined. */
  method NewFrameAggregateError(rootName: string, rootError: Option<Exc>, subErrors: SubErrors) returns (e: FrameAggregateError)
    ensures e == Build(rootName, rootError, subErrors)
    ensures e.rootFrameName == rootName && e.rootFrameError == rootError && e.subFrameErrors == subErrors
  {
    var parts: seq<string> := [];
    if rootError.Some? {
      parts := parts + [Part(rootName, rootError.value)];
    }
    for i := 0 to |subErrors|
      invariant parts == Parts(rootName, rootError, subErrors[..i])
    {
      assert subErrors[..i + 1][..i] == subErrors[..i];
      parts := parts + [Part(subErrors[i].0, subErrors[i].1)];
    }
    assert subErrors[..|subErrors|] == subErrors;
    e := FrameAggregateError(rootName, rootError, subErrors, Header(rootName) + Join(parts, ", "));
  }

  /**
   * One part per failed frame: the root's first exactly when there is a root error, then the
   * sub-frame errors in map order.
   */
  lemma PartsShape(rootName: string, rootError: Option<Exc>, subs: SubErrors)
    ensures var ps, k := Parts(rootName, rootError, subs), if rootError.Some? then 1 else 0;
      && |ps| == k + |subs|
      && (rootError.Some? ==> ps[0] == Part(rootName, rootError.value))
      && forall i | 0 <= i < |subs| :: ps[k + i] == Part(subs[i].0, subs[i].1)
  {
  }

  function SumLengths(ps: seq<string>): nat
    decreases |ps|
  {
    if ps == [] then 0 else |ps[0]| + SumLengths(ps[1..])
  }

  /** The joined text is every part plus one separator between each two neighbours. */
  lemma {:induction false} JoinLength(ps: seq<string>, sep: string)
    requires |ps| > 0
    ensures |Join(ps, sep)| == SumLengths(ps) + (|ps| - 1) * |sep|
    decreases |ps|
  {
    if |ps| > 1 {
      JoinLength(ps[1..], sep);
    }
  }

  /** The joined text begins with the first part and ends with the last. */
  lemma {:induction false} JoinEnds(ps: seq<string>, sep: string)
    requires |ps| > 0
    ensures ps[0] <= Join(ps, sep)
    ensures var j, l := Join(ps, sep), ps[|ps| - 1]; |l| <= |j| && j[|j| - |l|..] == l
    decreases |ps|
  {
    if |ps| > 1 {
      JoinEnds(ps[1..], sep);
      var j, l := Join(ps[1..], sep), ps[|ps| - 1];
      assert ps[1..][|ps[1..]| - 1] == l;
      var whole := ps[0] + sep + j;
      assert whole[|whole| - |l|..] == j[|j| - |l|..];
    }
  }

  /**
   * The message names the root and then the first failed frame: the root itself when it
   * failed, otherwise the first sub-frame.
   */
  lemma MessageNamesFirstFailure(rootName: string, rootError: Option<Exc>, subs: SubErrors)
    requires rootError.Some? || |subs| > 0
    ensures var m := Build(rootName, rootError, subs).message;
      var first := if rootError.Some? then Part(rootName, rootError.value) else Part(subs[0].0, subs[0].1);
      Header(rootName) + first <= m
  {
    var ps := Parts(rootName, rootError, subs);
    PartsShape(rootName, rootError, subs);
    JoinEnds(ps, ", ");
  }
}
