/**
 * The helpers of the `Serializable` base class: the filter that drops private
 * attributes before JSON serialization, the rule by which `from_dict` turns a JSON
 * object into constructor arguments, and the path checks at the top of `to_file`.
 *
 * Python objects are reduced to what these helpers look at. An object's attributes
 * are a map from names to values. A JSON value is null, an object, or an atom
 * standing for every other JSON value (number, string, boolean, list), kept as its
 * text. A type is a plain type, called on an atom or with no argument, or a
 * dataclass with its declared fields in declaration order.
 */
module Serializable {
  import opened Wrappers

  // ---------------------------------------------------------------- exclude_private

  /** An attribute whose name starts with `_`. */
  predicate Private(name: string)
    requires |name| > 0
  {
    name[0] == '_'
  }

  /**
   * `exclude_private()`: a copy of the attributes without the private ones. Reading
   * `key[0]` of an empty name raises, which is None here. The attributes themselves
   * are a value and stay as they are.
   */
  method ExcludePrivate<V>(attributes: map<string, V>) returns (r: Option<map<string, V>>)
    ensures r.None? <==> "" in attributes
    ensures r.Some? ==> forall k :: k in r.value <==> k in attributes && !Private(k)
    ensures r.Some? ==> forall k :: k in r.value ==> r.value[k] == attributes[k]
  {
    if "" in attributes {
      return None;
    }
    var noPrivate := attributes;
    var keysToPop := set k | k in attributes && Private(k);
    var remaining := keysToPop;
    while remaining != {}
      invariant remaining <= keysToPop
      invariant forall k :: k in noPrivate <==> k in attributes && !(k in keysToPop && k !in remaining)
      invariant forall k :: k in noPrivate ==> noPrivate[k] == attributes[k]
      decreases remaining
    {
      var key :| key in remaining;
      noPrivate := noPrivate - {key};
      remaining := remaining - {key};
    }
    return Some(noPrivate);
  }

  // ---------------------------------------------------------------- from_dict

  /** A JSON value as `json.loads` gives it. */
  datatype Json = Null | Object(entries: map<string, Json>) | Atom(text: string)

  /** A field's declared type. */
  datatype FieldType =
    | Plain(typeName: string)
    | Dataclass(typeName: string, fields: seq<Field>)

  /** A declared field: its name and type. */
  datatype Field = Field(name: string, ftype: FieldType)

  /** The value passed for one constructor argument. */
  datatype Arg =
    | Converted(typeName: string, text: string)      // `field_type(value)`
    | Default(typeName: string)                      // `field_type()`
    | Record(typeName: string, kwargs: map<string, Arg>) // `cls(**kwargs)`

  /** `d.get(name)`: the value under `name`, null when there is none. */
  function Lookup(d: map<string, Json>, name: string): Json {
    if name in d then d[name] else Null
  }

  /**
   * The argument for a field of type `t` whose JSON value is `value`: a missing or
   * null value gives the type's default, an object is built by the type's own
   * `from_dict` (a plain type has none, which raises), anything else is converted.
   */
  function ArgFor(t: FieldType, value: Json): Option<Arg>
    decreases t, 2
  {
    match value
    case Null => Some(Default(t.typeName))
    case Object(entries) => if t.Dataclass? then Build(t, entries) else None
    case Atom(text) => Some(Converted(t.typeName, text))
  }

  /** `cls.from_dict(d)`; None when it raises. */
  function Build(cls: FieldType, d: map<string, Json>): Option<Arg>
    requires cls.Dataclass?
    decreases cls, 1
  {
    match KwargsUpTo(cls, |cls.fields|, d)
    case None => None
    case Some(kwargs) => Some(Record(cls.typeName, kwargs))
  }

  /** The keyword arguments after the first n declared fields. */
  function KwargsUpTo(cls: FieldType, n: nat, d: map<string, Json>): Option<map<string, Arg>>
    requires cls.Dataclass? && n <= |cls.fields|
    decreases cls, 0, n
  {
    if n == 0 then Some(map[])
    else
      match KwargsUpTo(cls, n - 1, d)
      case None => None
      case Some(kwargs) =>
        var f := cls.fields[n - 1];
        match ArgFor(f.ftype, Lookup(d, f.name))
        case None => None
        case Some(a) => Some(kwargs[f.name := a])
  }

  /** The names of the first n declared fields. */
  function NamesUpTo(fields: seq<Field>, n: nat): set<string>
    requires n <= |fields|
  {
    set i | 0 <= i < n :: fields[i].name
  }

  /** Once a field raises, the whole call raises. */
  lemma {:induction false} KwargsFailureStays(cls: FieldType, i: nat, j: nat, d: map<string, Json>)
    requires cls.Dataclass? && i <= j <= |cls.fields|
    requires KwargsUpTo(cls, i, d).None?
    ensures KwargsUpTo(cls, j, d).None?
    decreases j - i
  {
    if i < j {
      KwargsFailureStays(cls, i, j - 1, d);
    }
  }

  /**
   * `from_dict`: one pass over the declared fields, filling `kwargs`; a nested
   * dataclass is built by a recursive call.
   */
  method FromDict(cls: FieldType, d: map<string, Json>) returns (r: Option<Arg>)
    requires cls.Dataclass?
    ensures r == Build(cls, d)
    decreases cls
  {
    var kwargs: map<string, Arg> := map[];
    var i := 0;
    while i < |cls.fields|
      invariant 0 <= i <= |cls.fields|
      invariant KwargsUpTo(cls, i, d) == Some(kwargs)
    {
      var f := cls.fields[i];
      var value := Lookup(d, f.name);
      if value != Null {
        if value.Object? {
          if !f.ftype.Dataclass? {
            KwargsFailureStays(cls, i + 1, |cls.fields|, d);
            return None;
          }
          var inner := FromDict(f.ftype, value.entries);
          if inner.None? {
            KwargsFailureStays(cls, i + 1, |cls.fields|, d);
            return None;
          }
          kwargs := kwargs[f.name := inner.value];
        } else {
          kwargs := kwargs[f.name := Converted(f.ftype.typeName, value.text)];
        }
      } else {
        kwargs := kwargs[f.name := Default(f.ftype.typeName)];
      }
      i := i + 1;
    }
    return Some(Record(cls.typeName, kwargs));
  }

  /** One keyword argument per declared field, and no other. */
  lemma {:induction false} KwargsKeys(cls: FieldType, n: nat, d: map<string, Json>)
    requires cls.Dataclass? && n <= |cls.fields|
    requires KwargsUpTo(cls, n, d).Some?
    ensures KwargsUpTo(cls, n, d).value.Keys == NamesUpTo(cls.fields, n)
  {
    if n > 0 {
      KwargsKeys(cls, n - 1, d);
      assert NamesUpTo(cls.fields, n) == NamesUpTo(cls.fields, n - 1) + {cls.fields[n - 1].name};
    }
  }

  /** A built object has exactly one argument per declared field. */
  lemma BuildKeys(cls: FieldType, d: map<string, Json>)
    requires cls.Dataclass?
    requires Build(cls, d).Some?
    ensures Build(cls, d).value.Record?
    ensures Build(cls, d).value.kwargs.Keys == NamesUpTo(cls.fields, |cls.fields|)
  {
    KwargsKeys(cls, |cls.fields|, d);
  }

  /** Only the values under declared names matter. */
  lemma {:induction false} KwargsDependOnFields(cls: FieldType, n: nat, d1: map<string, Json>, d2: map<string, Json>)
    requires cls.Dataclass? && n <= |cls.fields|
    requires forall i :: 0 <= i < |cls.fields| ==> Lookup(d1, cls.fields[i].name) == Lookup(d2, cls.fields[i].name)
    ensures KwargsUpTo(cls, n, d1) == KwargsUpTo(cls, n, d2)
  {
    if n > 0 {
      KwargsDependOnFields(cls, n - 1, d1, d2);
    }
  }

  /** Keys that are not declared fields are ignored, and a null value is the same as a missing one. */
  lemma BuildIgnores(cls: FieldType, d: map<string, Json>, key: string)
    requires cls.Dataclass?
    ensures (forall i :: 0 <= i < |cls.fields| ==> cls.fields[i].name != key) ==> Build(cls, d) == Build(cls, d - {key})
    ensures Build(cls, d[key := Null]) == Build(cls, d - {key})
  {
    if forall i :: 0 <= i < |cls.fields| ==> cls.fields[i].name != key {
      KwargsDependOnFields(cls, |cls.fields|, d, d - {key});
    }
    KwargsDependOnFields(cls, |cls.fields|, d[key := Null], d - {key});
  }

  /** The field names are pairwise different, as a dataclass's are. */
  predicate DistinctNames(fields: seq<Field>) {
    forall i, j :: 0 <= i < j < |fields| ==> fields[i].name != fields[j].name
  }

  /** With distinct names, each declared field gets the argument its own value calls for. */
  lemma {:induction false} KwargsPerField(cls: FieldType, n: nat, d: map<string, Json>, i: nat)
    requires cls.Dataclass? && n <= |cls.fields| && DistinctNames(cls.fields)
    requires i < n
    requires KwargsUpTo(cls, n, d).Some?
    ensures ArgFor(cls.fields[i].ftype, Lookup(d, cls.fields[i].name)).Some?
    ensures cls.fields[i].name in KwargsUpTo(cls, n, d).value
    ensures KwargsUpTo(cls, n, d).value[cls.fields[i].name] ==
      ArgFor(cls.fields[i].ftype, Lookup(d, cls.fields[i].name)).value
  {
    if i < n - 1 {
      KwargsPerField(cls, n - 1, d, i);
    }
  }

  /** A missing or null field is built from the default of its type. */
  lemma MissingIsDefault(cls: FieldType, d: map<string, Json>, i: nat)
    requires cls.Dataclass? && DistinctNames(cls.fields) && i < |cls.fields|
    requires Build(cls, d).Some?
    requires Lookup(d, cls.fields[i].name) == Null
    ensures Build(cls, d).value.Record? && cls.fields[i].name in Build(cls, d).value.kwargs
    ensures Build(cls, d).value.kwargs[cls.fields[i].name] == Default(cls.fields[i].ftype.typeName)
  {
    KwargsPerField(cls, |cls.fields|, d, i);
  }

  // ---------------------------------------------------------------- to_file

  /** `s.rfind(c)`: the last index of c in s, or -1. */
  function RFind(s: string, c: char): (r: int)
    ensures -1 <= r < |s|
    ensures r == -1 <==> c !in s
    ensures 0 <= r ==> s[r] == c && c !in s[r + 1..]
  {
    if |s| == 0 then -1
    else if s[|s| - 1] == c then |s| - 1
    else
      var r := RFind(s[..|s| - 1], c);
      assert s[r + 1..] == s[..|s| - 1][r + 1..] + [s[|s| - 1]];
      r
  }

  /** `s[:k]`: a negative k counts from the end. */
  function SliceTo(s: string, k: int): (r: string)
    ensures |r| <= |s| && r == s[..|r|]
    ensures k >= 0 ==> |r| == (if k <= |s| then k else |s|)
    ensures k < 0 ==> |r| == (if |s| + k >= 0 then |s| + k else 0)
  {
    if k >= 0 then s[..if k <= |s| then k else |s|]
    else s[..if |s| + k >= 0 then |s| + k else 0]
  }

  /** What `to_file` does with a path. */
  datatype SavePlan =
    | NotSaved               // logged and None returned
    | SaveIn(dir: string)    // `dir` is created when missing, then the file is written
    | SaveHere               // the file is written in the working directory

  /** The checks at the top of `to_file`, as written. */
  function ToFile(path: string): SavePlan {
    if '.' !in path then NotSaved
    else SaveIn(SliceTo(path, RFind(path, '/')))
  }

  /** No extension, no file; with a `/`, the directory is the part before the last `/`. */
  lemma ToFileParent(path: string)
    ensures ToFile(path).NotSaved? <==> '.' !in path
    ensures '.' in path && '/' in path ==>
      var dir := ToFile(path).dir;
      && path[..|dir|] == dir && |dir| < |path| && path[|dir|] == '/'
      && '/' !in path[|dir| + 1..]
  {
  }

  /** With no `/`, the `[:-1]` slice makes the path minus its last character the directory. */
  lemma ToFileNoSlash(path: string)
    requires '.' in path && '/' !in path
    ensures ToFile(path) == SaveIn(path[..|path| - 1])
  {
  }

  /** "config.json" makes `to_file` create a directory "config.jso". */
  lemma ToFileStrayDirectory()
    ensures ToFile("config.json") == SaveIn("config.jso")
  {
    ToFileNoSlash("config.json");
    assert "config.json"[..10] == "config.jso";
  }

  /** The checks as evidently intended: with no `/`, no directory is created. */
  function ToFileIntended(path: string): SavePlan {
    if '.' !in path then NotSaved
    else if '/' !in path then SaveHere
    else SaveIn(path[..RFind(path, '/')])
  }

  /** The intended plan only ever creates the path's own parent directory, and agrees with `to_file` whenever a `/` is present. */
  lemma ToFileIntendedParent(path: string)
    ensures ToFileIntended(path).NotSaved? <==> '.' !in path
    ensures ToFileIntended(path).SaveHere? <==> '.' in path && '/' !in path
    ensures ToFileIntended(path).SaveIn? ==>
      var dir := ToFileIntended(path).dir;
      && path[..|dir|] == dir && |dir| < |path| && path[|dir|] == '/' && '/' !in path[|dir| + 1..]
    ensures '/' in path ==> ToFileIntended(path) == ToFile(path)
  {
  }
}
