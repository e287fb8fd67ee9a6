/** Turning one user edge of either shape into a lower-case login. */
module EdgeNormalizer {

  import opened Wrappers
  import opened Responses
  import opened SeqFacts

  predicate IsUpper(c: char) {
    'A' <= c <= 'Z'
  }

  /** ASCII lower-casing of one character. */
  function LowerChar(c: char): char {
    if IsUpper(c) then (c as int - 'A' as int + 'a' as int) as char else c
  }

  predicate IsLower(s: string) {
    forall i :: 0 <= i < |s| ==> !IsUpper(s[i])
  }

  /** Lower-casing of a login (ASCII letters only). */
  function Lower(s: string): (r: string)
    ensures |r| == |s|
    ensures IsLower(r)
    ensures forall i :: 0 <= i < |s| ==> (r[i] == s[i] <==> !IsUpper(s[i]))
    ensures forall i :: 0 <= i < |s| && IsUpper(s[i]) ==> r[i] as int == s[i] as int + 32
  {
    seq(|s|, i requires 0 <= i < |s| => LowerChar(s[i]))
  }

  /**
   * One edge to one login: a node's own `login` wins; otherwise the login of
   * its `invitee`; a node with neither key is not a user edge.
   */
  function UserEdgeToS(u: Edge): (r: Outcome<string>)
    ensures r.Ok? ==> IsLower(r.value)
    ensures r.Ok? <==> u.node.login.Some? || (u.node.invitee.Some? && u.node.invitee.value.login.Some?)
    ensures u.node.login.Some? ==> r == Ok(Lower(u.node.login.value))
    ensures u.node.login.None? && u.node.invitee.Some? && u.node.invitee.value.login.Some? ==>
              r == Ok(Lower(u.node.invitee.value.login.value))
    ensures u.node.login.None? && u.node.invitee.Some? && u.node.invitee.value.login.None? ==>
              r == Err(MissingInviteeLogin(u))
    ensures u.node.login.None? && u.node.invitee.None? ==> r == Err(UnknownUserFormat(u))
  {
    match u.node
    case Node(Some(login), _) => Ok(Lower(login))
    case Node(None, Some(Invitee(Some(login)))) => Ok(Lower(login))
    case Node(None, Some(Invitee(None))) => Err(MissingInviteeLogin(u))
    case Node(None, None) => Err(UnknownUserFormat(u))
  }

  /**
   * Every edge of a list, in order; the first edge that is not a user edge
   * aborts with its error.
   */
  function NormaliseEdges(es: seq<Edge>): (r: Outcome<seq<string>>)
    ensures r.Ok? <==> forall i :: 0 <= i < |es| ==> UserEdgeToS(es[i]).Ok?
    ensures r.Ok? ==> |r.value| == |es|
    ensures r.Ok? ==> forall i :: 0 <= i < |es| ==> r.value[i] == UserEdgeToS(es[i]).value
    decreases |es|
  {
    if es == [] then Ok([])
    else
      var head :- UserEdgeToS(es[0]);
      var tail := NormaliseEdges(es[1..]);
      if tail.Err? then
        assert UserEdgeToS(es[0]).Ok?;
        Err(tail.error)
      else
        Ok([head] + tail.value)
  }

  /** A list that normalises edge by edge: its head's login, then its tail's. */
  lemma NormaliseEdgesCons(es: seq<Edge>)
    requires es != [] && UserEdgeToS(es[0]).Ok? && NormaliseEdges(es[1..]).Ok?
    ensures NormaliseEdges(es) == Ok([UserEdgeToS(es[0]).value] + NormaliseEdges(es[1..]).value)
  {
  }

  /** Normalising two lists one after the other is normalising their concatenation. */
  lemma {:induction false} NormaliseEdgesAppend(a: seq<Edge>, b: seq<Edge>)
    requires NormaliseEdges(a).Ok? && NormaliseEdges(b).Ok?
    ensures NormaliseEdges(a + b) == Ok(NormaliseEdges(a).value + NormaliseEdges(b).value)
    decreases |a|
  {
    if a == [] {
      assert a + b == b;
      assert NormaliseEdges(a).value + NormaliseEdges(b).value == NormaliseEdges(b).value;
    } else {
      var ab := a + b;
      assert ab[0] == a[0];
      assert ab[1..] == a[1..] + b;
      NormaliseEdgesAppend(a[1..], b);
      NormaliseEdgesCons(a);
      NormaliseEdgesCons(ab);
      ConsAppend(UserEdgeToS(a[0]).value, NormaliseEdges(a[1..]).value, NormaliseEdges(b).value);
    }
  }

  /** The error reported is that of the first edge that is not a user edge. */
  lemma {:induction false} NormaliseEdgesFirstError(es: seq<Edge>, i: nat)
    requires i < |es| && UserEdgeToS(es[i]).Err?
    requires forall j :: 0 <= j < i ==> UserEdgeToS(es[j]).Ok?
    ensures NormaliseEdges(es) == Err(UserEdgeToS(es[i]).error)
    decreases i
  {
    if i > 0 {
      NormaliseEdgesFirstError(es[1..], i - 1);
    }
  }
}
