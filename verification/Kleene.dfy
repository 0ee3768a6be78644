/** Three-valued verdicts and the strong Kleene connectives over any number of arguments. */
module Kleene {

  /** Met, not met, or could not be determined. */
  datatype Tri = Holds | Fails | Unknown

  function Truth3(b: bool): Tri {
    if b then Holds else Fails
  }

  function Not3(t: Tri): Tri {
    match t case Holds => Fails case Fails => Holds case Unknown => Unknown
  }

  /** Kleene's tables for two arguments. */
  function And3(a: Tri, b: Tri): Tri {
    if a.Fails? || b.Fails? then Fails else if a.Unknown? || b.Unknown? then Unknown else Holds
  }

  function Or3(a: Tri, b: Tri): Tri {
    Not3(And3(Not3(a), Not3(b)))
  }

  /** The conjunction of a list, in no particular order. */
  function Meet(ts: seq<Tri>): Tri {
    if Fails in ts then Fails else if Unknown in ts then Unknown else Holds
  }

  /** The disjunction of a list, in no particular order. */
  function Join(ts: seq<Tri>): Tri {
    if Holds in ts then Holds else if Unknown in ts then Unknown else Fails
  }

  /** Meet and Join are Kleene's binary tables folded over the list. */
  lemma MeetFolds(ts: seq<Tri>, t: Tri)
    ensures Meet([]) == Holds && Meet(ts + [t]) == And3(Meet(ts), t)
    ensures Join([]) == Fails && Join(ts + [t]) == Or3(Join(ts), t)
  {
    assert forall x :: x in ts + [t] <==> x in ts || x == t;
  }

  lemma SameVerdicts(ts: seq<Tri>, us: seq<Tri>)
    requires forall x :: x in ts <==> x in us
    ensures Meet(ts) == Meet(us) && Join(ts) == Join(us)
  {
  }

  /** b says at least as much as a. */
  predicate Below(a: Tri, b: Tri) {
    a.Unknown? || a == b
  }

  predicate AllBelow(ts: seq<Tri>, us: seq<Tri>) {
    |ts| == |us| && forall i :: 0 <= i < |ts| ==> Below(ts[i], us[i])
  }

  /** Knowing more never turns a decided conjunction or disjunction around. */
  lemma ConnectivesMonotone(ts: seq<Tri>, us: seq<Tri>)
    requires AllBelow(ts, us)
    ensures Below(Meet(ts), Meet(us)) && Below(Join(ts), Join(us))
  {
    if Fails in ts {
      var i :| 0 <= i < |ts| && ts[i] == Fails;
      assert us[i] == Fails;
    } else if Unknown !in ts {
      assert forall i :: 0 <= i < |ts| ==> ts[i] == Holds;
      assert forall i :: 0 <= i < |us| ==> us[i] == Holds;
    }
    if Holds in ts {
      var i :| 0 <= i < |ts| && ts[i] == Holds;
      assert us[i] == Holds;
    } else if Unknown !in ts {
      assert forall i :: 0 <= i < |ts| ==> ts[i] == Fails;
      assert forall i :: 0 <= i < |us| ==> us[i] == Fails;
    }
  }
}
