/**
 * The cartoon face of the dashboard. Its mood is `currentState`, and each mood other
 * than normal shows as a CSS class of the same name on three elements: the page body,
 * the eyes and the mouth. A class list is a set of class names; the console logging
 * and the markup written by `render` are not modelled beyond the classes it gives the
 * eyes and the mouth.
 */
module Face {

  datatype Mood = Normal | Worried | Tired

  const WorriedClass: string := "worried"
  const TiredClass: string := "tired"

  /** The two classes that show a mood. */
  function MoodClasses(): set<string> {
    {WorriedClass, TiredClass}
  }

  /** The face's mood and the class lists of the body, the eyes and the mouth, as a value. */
  datatype Look = Look(state: Mood, body: set<string>, eyes: set<string>, mouth: set<string>)

  /** The class list shows mood m and no other mood. */
  predicate Shows(classes: set<string>, m: Mood) {
    (WorriedClass in classes <==> m == Worried) && (TiredClass in classes <==> m == Tired)
  }

  /** All three elements show the face's own mood. */
  predicate Consistent(f: Look) {
    Shows(f.body, f.state) && Shows(f.eyes, f.state) && Shows(f.mouth, f.state)
  }

  /** The classes that do not show a mood are the same in both looks. */
  predicate SameOtherClasses(f: Look, g: Look) {
    f.body - MoodClasses() == g.body - MoodClasses()
    && f.eyes - MoodClasses() == g.eyes - MoodClasses()
    && f.mouth - MoodClasses() == g.mouth - MoodClasses()
  }

  /** The look right after the constructor: normal, eyes and mouth carrying only their own class. */
  function Initial(body: set<string>): (f: Look)
    ensures f.state == Normal
    ensures !(WorriedClass in body || TiredClass in body) ==> Consistent(f)
  {
    Look(Normal, body, {"eyes"}, {"mouth"})
  }

  /** `setNormal()`: from any other mood, both mood classes go from all three elements. */
  function AfterSetNormal(f: Look): Look {
    if f.state != Normal then
      Look(Normal, f.body - MoodClasses(), f.eyes - MoodClasses(), f.mouth - MoodClasses())
    else f
  }

  /** Remove `off`, then add `on`, as `classList.remove(off); classList.add(on)` does. */
  function Swap(classes: set<string>, off: string, on: string): set<string> {
    classes - {off} + {on}
  }

  /** `setWorried(isWorried)`. */
  function AfterSetWorried(f: Look, isWorried: bool): Look {
    if isWorried && f.state != Worried then
      Look(Worried, Swap(f.body, TiredClass, WorriedClass), Swap(f.eyes, TiredClass, WorriedClass),
           Swap(f.mouth, TiredClass, WorriedClass))
    else if !isWorried && f.state == Worried then AfterSetNormal(f)
    else f
  }

  /** `setTired(isTired)`. */
  function AfterSetTired(f: Look, isTired: bool): Look {
    if isTired && f.state != Tired then
      Look(Tired, Swap(f.body, WorriedClass, TiredClass), Swap(f.eyes, WorriedClass, TiredClass),
           Swap(f.mouth, WorriedClass, TiredClass))
    else if !isTired && f.state == Tired then AfterSetNormal(f)
    else f
  }

  /**
   * `setNormal()` ends normal and keeps every class that does not show a mood; from
   * another mood it removes both mood classes everywhere, and from normal it does nothing.
   */
  lemma SetNormalEffect(f: Look)
    ensures var g := AfterSetNormal(f);
      && g.state == Normal && SameOtherClasses(f, g)
      && (f.state != Normal ==> Shows(g.body, Normal) && Shows(g.eyes, Normal) && Shows(g.mouth, Normal))
      && (f.state == Normal ==> g == f)
  {
  }

  /**
   * `setWorried(isWorried)` keeps every class that does not show a mood. With true it
   * ends worried, showing it on all three elements when it was not worried before; with
   * false it falls back to `setNormal()` only from worried; otherwise nothing changes.
   */
  lemma SetWorriedEffect(f: Look, isWorried: bool)
    ensures var g := AfterSetWorried(f, isWorried);
      && SameOtherClasses(f, g)
      && (isWorried ==> g.state == Worried)
      && (isWorried && f.state != Worried ==> Shows(g.body, Worried) && Shows(g.eyes, Worried) && Shows(g.mouth, Worried))
      && (!isWorried && f.state == Worried ==> g == AfterSetNormal(f))
      && ((isWorried && f.state == Worried) || (!isWorried && f.state != Worried) ==> g == f)
  {
  }

  /** `setTired(isTired)`, as SetWorriedEffect with the tired mood. */
  lemma SetTiredEffect(f: Look, isTired: bool)
    ensures var g := AfterSetTired(f, isTired);
      && SameOtherClasses(f, g)
      && (isTired ==> g.state == Tired)
      && (isTired && f.state != Tired ==> Shows(g.body, Tired) && Shows(g.eyes, Tired) && Shows(g.mouth, Tired))
      && (!isTired && f.state == Tired ==> g == AfterSetNormal(f))
      && ((isTired && f.state == Tired) || (!isTired && f.state != Tired) ==> g == f)
  {
  }

  /** Calling `setNormal`, `setWorried(true)` or `setTired(true)` a second time changes nothing. */
  lemma Idempotent(f: Look)
    ensures AfterSetNormal(AfterSetNormal(f)) == AfterSetNormal(f)
    ensures AfterSetWorried(AfterSetWorried(f, true), true) == AfterSetWorried(f, true)
    ensures AfterSetTired(AfterSetTired(f, true), true) == AfterSetTired(f, true)
  {
  }

  /** Every operation keeps the three elements showing the face's own mood. */
  lemma ConsistentPreserved(f: Look, on: bool)
    requires Consistent(f)
    ensures Consistent(AfterSetNormal(f))
    ensures Consistent(AfterSetWorried(f, on))
    ensures Consistent(AfterSetTired(f, on))
  {
  }

  /** The calls a page can make on the face. */
  datatype Call = SetNormal | SetWorried(isWorried: bool) | SetTired(isTired: bool)

  function Apply(f: Look, c: Call): Look {
    match c
    case SetNormal => AfterSetNormal(f)
    case SetWorried(b) => AfterSetWorried(f, b)
    case SetTired(b) => AfterSetTired(f, b)
  }

  /** The look after the calls, in order. */
  function ApplyAll(f: Look, calls: seq<Call>): Look
    decreases |calls|
  {
    if calls == [] then f else ApplyAll(Apply(f, calls[0]), calls[1..])
  }

  /**
   * From a clean start, after any sequence of calls the eyes and the mouth carry exactly
   * the class named by the mood, so never both `worried` and `tired`, and every other
   * class is where it was.
   */
  lemma {:induction false} ConsistentAfterCalls(body: set<string>, calls: seq<Call>)
    requires WorriedClass !in body && TiredClass !in body
    ensures Consistent(ApplyAll(Initial(body), calls))
    ensures var f := ApplyAll(Initial(body), calls);
      !(WorriedClass in f.eyes && TiredClass in f.eyes) && !(WorriedClass in f.mouth && TiredClass in f.mouth)
  {
    ConsistentAlong(Initial(body), calls);
  }

  lemma {:induction false} ConsistentAlong(f: Look, calls: seq<Call>)
    requires Consistent(f)
    ensures Consistent(ApplyAll(f, calls))
    decreases |calls|
  {
    if calls != [] {
      var c := calls[0];
      assert Consistent(Apply(f, c)) by {
        match c
        case SetNormal => ConsistentPreserved(f, true);
        case SetWorried(b) => ConsistentPreserved(f, b);
        case SetTired(b) => ConsistentPreserved(f, b);
      }
      ConsistentAlong(Apply(f, c), calls[1..]);
    }
  }

  /** The face object: `currentState` and the class lists it edits. */
  class FaceDisplay {
    var state: Mood
    var body: set<string>
    var eyes: set<string>
    var mouth: set<string>

    function Snapshot(): Look
      reads this
    {
      Look(state, body, eyes, mouth)
    }

    /** `render` then `initializeElements`; `body` is the page body's class list at that time. */
    constructor(bodyClasses: set<string>)
      ensures Snapshot() == Initial(bodyClasses)
    {
      state := Normal;
      body := bodyClasses;
      eyes := {"eyes"};
      mouth := {"mouth"};
    }

    method SetNormal()
      modifies this
      ensures Snapshot() == AfterSetNormal(old(Snapshot()))
    {
      if state != Normal {
        body := body - {WorriedClass, TiredClass};
        eyes := eyes - {WorriedClass, TiredClass};
        mouth := mouth - {WorriedClass, TiredClass};
        state := Normal;
      }
    }

    method SetWorried(isWorried: bool)
      modifies this
      ensures Snapshot() == AfterSetWorried(old(Snapshot()), isWorried)
    {
      if isWorried && state != Worried {
        body := body - {TiredClass};
        body := body + {WorriedClass};
        eyes := eyes - {TiredClass};
        eyes := eyes + {WorriedClass};
        mouth := mouth - {TiredClass};
        mouth := mouth + {WorriedClass};
        state := Worried;
      } else if !isWorried && state == Worried {
        SetNormal();
      }
    }

    method SetTired(isTired: bool)
      modifies this
      ensures Snapshot() == AfterSetTired(old(Snapshot()), isTired)
    {
      if isTired && state != Tired {
        body := body - {WorriedClass};
        body := body + {TiredClass};
        eyes := eyes - {WorriedClass};
        eyes := eyes + {TiredClass};
        mouth := mouth - {WorriedClass};
        mouth := mouth + {TiredClass};
        state := Tired;
      } else if !isTired && state == Tired {
        SetNormal();
      }
    }
  }
}
