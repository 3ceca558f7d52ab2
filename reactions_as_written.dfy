/** The counting step exactly as the JavaScript guard `counts[t] !== undefined`
    behaves on a plain object literal. Property lookup also finds the members
    that every object inherits from `Object.prototype`, so for those names the
    guard passes and `counts[t]++` creates an own property holding `NaN`
    (a function value converted to a number). `__proto__` is left out of the
    set: its setter ignores a number, so no key appears for it. */
module AsWritten {
  import opened Reactions

  /** A property value as far as the counter can hold it. */
  datatype JsNumber = Finite(n: nat) | NaN

  function Increment(v: JsNumber): JsNumber
  {
    match v
    case Finite(n) => Finite(n + 1)
    case NaN => NaN
  }

  /** Names found on every plain object through its prototype whose
      assignment creates an own property. */
  const InheritedNames: set<string> :=
    {"constructor", "hasOwnProperty", "isPrototypeOf", "propertyIsEnumerable",
     "toLocaleString", "toString", "valueOf",
     "__defineGetter__", "__defineSetter__", "__lookupGetter__", "__lookupSetter__"}

  /** `{ like: 0, helpful: 0, available: 0, unavailable: 0 }` as an object. */
  const Fresh: map<string, JsNumber> :=
    map[Like := Finite(0), Helpful := Finite(0), Available := Finite(0), Unavailable := Finite(0)]

  /** The counter object after the `forEach`, as the code is written. */
  function Tally(events: seq<ReactionEvent>): map<string, JsNumber>
  {
    if events == [] then Fresh
    else
      var m := Tally(events[..|events| - 1]);
      var t := events[|events| - 1].reactionType;
      if t in m then m[t := Increment(m[t])]
      else if t in InheritedNames then m[t := NaN]
      else m
  }

  /** The counter object `CountsOf` describes: its four buckets and nothing else. */
  function AsObject(c: Counts): (m: map<string, JsNumber>)
    ensures m.Keys == KnownTypes
    ensures forall t :: t in KnownTypes ==> m[t] == Finite(c.Get(t))
  {
    map[Like := Finite(c.like), Helpful := Finite(c.helpful),
        Available := Finite(c.available), Unavailable := Finite(c.unavailable)]
  }

  /** One event whose type is "toString" gives the counter a fifth key,
      holding NaN: the events of this type are not ignored. */
  lemma InheritedNameAddsKey()
    ensures var m := Tally([ReactionEvent("l1", "toString")]);
            m.Keys == KnownTypes + {"toString"} && m["toString"] == NaN
    ensures Tally([ReactionEvent("l1", "toString")]) != AsObject(CountsOf([ReactionEvent("l1", "toString")]))
  {
  }

  lemma AsObjectBump(c: Counts, t: string)
    requires t in KnownTypes
    ensures AsObject(c)[t := Increment(AsObject(c)[t])] == AsObject(Bump(c, t))
  {
  }

  /** As long as no event carries an inherited name, the code as written
      builds exactly the four-bucket counter of the corrected model. */
  lemma {:induction false} TallyAgreesWithoutInheritedNames(events: seq<ReactionEvent>)
    requires forall i :: 0 <= i < |events| ==> events[i].reactionType !in InheritedNames
    ensures Tally(events) == AsObject(CountsOf(events))
  {
    if events != [] {
      var init := events[..|events| - 1];
      var t := events[|events| - 1].reactionType;
      assert forall i :: 0 <= i < |init| ==> init[i] == events[i];
      TallyAgreesWithoutInheritedNames(init);
      var c := CountsOf(init);
      var m := AsObject(c);
      assert CountsOf(events) == Bump(c, t);
      if t in KnownTypes {
        assert t in m;
        AsObjectBump(c, t);
      } else {
        assert t !in m && t !in InheritedNames;
      }
    }
  }
}
