/** The few types every module shares. An identifier stands for a UUID: only equality and freshness
    matter, so identifiers are drawn from one ever-growing counter. */
module Prelude {
  datatype Option<+T> = None | Some(value: T)

  type Id = nat

  type Time = nat

  /** SQL's COALESCE: the first value that is there. */
  function Coalesce<T>(first: Option<T>, second: Option<T>): Option<T> {
    if first.Some? then first else second
  }

  predicate IsMax(ids: set<Id>, m: Id) { m in ids && forall i :: i in ids ==> i <= m }

  lemma MaxExists(ids: set<Id>)
    requires ids != {}
    ensures exists m :: IsMax(ids, m)
  {
    var i :| i in ids;
    if ids == {i} {
      assert IsMax(ids, i);
    } else {
      MaxExists(ids - {i});
      var m :| IsMax(ids - {i}, m);
      var top := if i > m then i else m;
      forall j | j in ids ensures j <= top { assert j == i || j in ids - {i}; }
      assert IsMax(ids, top);
    }
  }

  predicate IsMin(ids: set<Id>, m: Id) { m in ids && forall i :: i in ids ==> m <= i }

  lemma MinExists(ids: set<Id>)
    requires ids != {}
    ensures exists m :: IsMin(ids, m)
  {
    var i :| i in ids;
    if ids == {i} {
      assert IsMin(ids, i);
    } else {
      MinExists(ids - {i});
      var m :| IsMin(ids - {i}, m);
      var low := if i < m then i else m;
      forall j | j in ids ensures low <= j { assert j == i || j in ids - {i}; }
      assert IsMin(ids, low);
    }
  }
}
