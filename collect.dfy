/**
 * The two accumulation patterns the resolver's `foreach` loops follow, as
 * functions: mapping a step that may throw over a list (first exception
 * wins), and registering key/value entries in a name-to-object manager.
 */
module Collect {
  import opened Wrappers

  /** Apply `f` to each element in order and collect the results, stopping at the first error. */
  function MapAll<X, Y, E>(f: X -> Result<Y, E>, xs: seq<X>): Result<seq<Y>, E>
    decreases |xs|
  {
    if xs == [] then Ok([])
    else
      var init :- MapAll(f, xs[..|xs| - 1]);
      var y :- f(xs[|xs| - 1]);
      Ok(init + [y])
  }

  /** MapAll succeeds exactly when every step does, and then yields one result per element, in order. */
  lemma {:induction false} MapAllOk<X, Y, E>(f: X -> Result<Y, E>, xs: seq<X>)
    ensures MapAll(f, xs).Ok? <==> forall i :: 0 <= i < |xs| ==> f(xs[i]).Ok?
    ensures MapAll(f, xs).Ok? ==>
              |MapAll(f, xs).value| == |xs| &&
              forall i :: 0 <= i < |xs| ==> MapAll(f, xs).value[i] == f(xs[i]).value
    decreases |xs|
  {
    if xs != [] {
      var n := |xs| - 1;
      var init := xs[..n];
      MapAllOk(f, init);
      assert forall i :: 0 <= i < n ==> init[i] == xs[i];
    }
  }

  /** A failing MapAll reports the error of the first element whose step fails. */
  lemma {:induction false} MapAllFirstErr<X, Y, E>(f: X -> Result<Y, E>, xs: seq<X>)
    requires MapAll(f, xs).Err?
    ensures exists k :: 0 <= k < |xs| && f(xs[k]) == Err(MapAll(f, xs).error) &&
                        forall j :: 0 <= j < k ==> f(xs[j]).Ok?
    decreases |xs|
  {
    var n := |xs| - 1;
    var init := xs[..n];
    assert forall i :: 0 <= i < n ==> init[i] == xs[i];
    if MapAll(f, init).Err? {
      MapAllFirstErr(f, init);
      var k :| 0 <= k < n && f(init[k]) == Err(MapAll(f, init).error) &&
               forall j :: 0 <= j < k ==> f(init[j]).Ok?;
      assert f(xs[k]) == Err(MapAll(f, xs).error);
    } else {
      MapAllOk(f, init);
      assert f(xs[n]) == Err(MapAll(f, xs).error);
    }
  }

  /** One loop step: extending the prefix by one element. */
  lemma MapAllExtend<X, Y, E>(f: X -> Result<Y, E>, xs: seq<X>, i: nat, acc: seq<Y>)
    requires i < |xs| && MapAll(f, xs[..i]) == Ok(acc)
    ensures f(xs[i]).Ok? ==> MapAll(f, xs[..i + 1]) == Ok(acc + [f(xs[i]).value])
    ensures f(xs[i]).Err? ==> MapAll(f, xs) == Err(f(xs[i]).error)
  {
    assert xs[..i + 1][..i] == xs[..i];
    if f(xs[i]).Err? {
      MapAllErrPrefix(f, xs, i + 1);
    }
  }

  /** Once a prefix fails, the whole list fails with the same error. */
  lemma {:induction false} MapAllErrPrefix<X, Y, E>(f: X -> Result<Y, E>, xs: seq<X>, k: nat)
    requires k <= |xs| && MapAll(f, xs[..k]).Err?
    ensures MapAll(f, xs) == MapAll(f, xs[..k])
    decreases |xs|
  {
    if k < |xs| {
      var init := xs[..|xs| - 1];
      assert init[..k] == xs[..k];
      MapAllErrPrefix(f, init, k);
    } else {
      assert xs[..k] == xs;
    }
  }

  /** No two entries share a key, as in a PHP array. */
  ghost predicate DistinctKeys<K, A>(es: seq<(K, A)>) {
    forall i, j :: 0 <= i < j < |es| ==> es[i].0 != es[j].0
  }

  /**
   * Register each entry's object under its key, in order, as `$manager->set($key, ...)`
   * inside a foreach; a step yielding None registers nothing, the first error aborts.
   */
  function Register<K(==), A, V, E>(f: A -> Result<Option<V>, E>, es: seq<(K, A)>): Result<map<K, V>, E>
    decreases |es|
  {
    if es == [] then Ok(map[])
    else
      var m :- Register(f, es[..|es| - 1]);
      var v :- f(es[|es| - 1].1);
      Ok(if v.Some? then m[es[|es| - 1].0 := v.value] else m)
  }

  /**
   * With distinct keys, Register succeeds exactly when every step does; then a key is
   * registered exactly when its step yields an object, under that object, and no other
   * key is registered.
   */
  lemma {:induction false} RegisterOk<K, A, V, E>(f: A -> Result<Option<V>, E>, es: seq<(K, A)>)
    requires DistinctKeys(es)
    ensures Register(f, es).Ok? <==> forall i :: 0 <= i < |es| ==> f(es[i].1).Ok?
    ensures var r := Register(f, es);
            r.Ok? ==>
              (forall i :: 0 <= i < |es| ==>
                 (es[i].0 in r.value <==> f(es[i].1).value.Some?) &&
                 (es[i].0 in r.value ==> r.value[es[i].0] == f(es[i].1).value.value)) &&
              (forall key :: key in r.value ==> exists i :: 0 <= i < |es| && es[i].0 == key)
    decreases |es|
  {
    if es != [] {
      var n := |es| - 1;
      var init := es[..n];
      assert forall i :: 0 <= i < n ==> init[i] == es[i];
      RegisterOk(f, init);
    }
  }

  /** A failing Register reports the error of the first entry whose step fails. */
  lemma {:induction false} RegisterFirstErr<K, A, V, E>(f: A -> Result<Option<V>, E>, es: seq<(K, A)>)
    requires Register(f, es).Err?
    ensures exists k :: 0 <= k < |es| && f(es[k].1) == Err(Register(f, es).error) &&
                        forall j :: 0 <= j < k ==> f(es[j].1).Ok?
    decreases |es|
  {
    var n := |es| - 1;
    var init := es[..n];
    assert forall i :: 0 <= i < n ==> init[i] == es[i];
    if Register(f, init).Err? {
      RegisterFirstErr(f, init);
      var k :| 0 <= k < n && f(init[k].1) == Err(Register(f, init).error) &&
               forall j :: 0 <= j < k ==> f(init[j].1).Ok?;
      assert f(es[k].1) == Err(Register(f, es).error);
    } else {
      RegisterAllOk(f, init);
      assert f(es[n].1) == Err(Register(f, es).error);
    }
  }

  /** Register fails only if some step fails. */
  lemma {:induction false} RegisterAllOk<K, A, V, E>(f: A -> Result<Option<V>, E>, es: seq<(K, A)>)
    ensures Register(f, es).Err? ==> exists i :: 0 <= i < |es| && f(es[i].1).Err?
    ensures Register(f, es).Ok? ==> forall i :: 0 <= i < |es| ==> f(es[i].1).Ok?
    decreases |es|
  {
    if es != [] {
      var n := |es| - 1;
      var init := es[..n];
      assert forall i :: 0 <= i < n ==> init[i] == es[i];
      RegisterAllOk(f, init);
    }
  }

  /** One loop step of a registration loop. */
  lemma RegisterExtend<K, A, V, E>(f: A -> Result<Option<V>, E>, es: seq<(K, A)>, i: nat, m: map<K, V>)
    requires i < |es| && Register(f, es[..i]) == Ok(m)
    ensures f(es[i].1).Ok? ==>
              Register(f, es[..i + 1]) ==
              Ok(if f(es[i].1).value.Some? then m[es[i].0 := f(es[i].1).value.value] else m)
    ensures f(es[i].1).Err? ==> Register(f, es) == Err(f(es[i].1).error)
  {
    assert es[..i + 1][..i] == es[..i];
    if f(es[i].1).Err? {
      RegisterErrPrefix(f, es, i + 1);
    }
  }

  /** Once a prefix of the entries fails, the whole registration fails with the same error. */
  lemma {:induction false} RegisterErrPrefix<K, A, V, E>(f: A -> Result<Option<V>, E>, es: seq<(K, A)>, k: nat)
    requires k <= |es| && Register(f, es[..k]).Err?
    ensures Register(f, es) == Register(f, es[..k])
    decreases |es|
  {
    if k < |es| {
      var init := es[..|es| - 1];
      assert init[..k] == es[..k];
      RegisterErrPrefix(f, init, k);
    } else {
      assert es[..k] == es;
    }
  }
}
