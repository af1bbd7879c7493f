/** The least element of a set of offsets. */
module IntSets {

  ghost function MinKey(s: set<int>): (k: int)
    requires s != {}
    ensures k in s && forall j | j in s :: k <= j
  {
    MinExists(s);
    var k :| k in s && forall j | j in s :: k <= j;
    k
  }

  lemma {:induction false} MinExists(s: set<int>)
    requires s != {}
    ensures exists k :: k in s && forall j | j in s :: k <= j
    decreases |s|
  {
    HasElement(s);
    var k :| k in s;
    if s != {k} {
      MinExists(s - {k});
      var l :| l in s - {k} && forall j | j in s - {k} :: l <= j;
      assert forall j | j in s :: j == k || j in s - {k};
      var least := if k <= l then k else l;
      assert least in s && forall j | j in s :: least <= j;
    }
  }

  lemma HasElement(s: set<int>)
    requires s != {}
    ensures exists k :: k in s
  {
    if forall k :: k !in s {
      NoElements(s);
    }
  }

  lemma NoElements(s: set<int>)
    requires forall k :: k !in s
    ensures s == {}
  {
    forall k ensures k in s <==> k in {} {
    }
  }
}
