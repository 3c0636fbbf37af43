/** Layering configured parameters over an encoded request body:
    backend/paramover/paramover.go.

    Numbers and strings keep their source text, so a leaf is its text; arrays are leaves,
    because they are replaced whole. */
module Paramover {
  import opened Ir

  datatype Json = Obj(fields: map<string, Json>) | Leaf(text: string)

  // ----- the two layers -----

  /** Fills gaps: what is there already stays. */
  function Defaults(body: Json, layer: Json): Json
    decreases layer
  {
    if !body.Obj? || !layer.Obj? then body
    else
      Obj(map k | k in body.fields.Keys + layer.fields.Keys ::
        if k !in body.fields then layer.fields[k]
        else if k !in layer.fields then body.fields[k]
        else Defaults(body.fields[k], layer.fields[k]))
  }

  /** Presses through: what the layer says replaces what is there. */
  function Overrides(body: Json, layer: Json): Json
    decreases layer
  {
    if !body.Obj? || !layer.Obj? then layer
    else
      Obj(map k | k in body.fields.Keys + layer.fields.Keys ::
        if k !in body.fields then layer.fields[k]
        else if k !in layer.fields then body.fields[k]
        else Overrides(body.fields[k], layer.fields[k]))
  }

  const RESERVED: set<string> := {"model", "stream", "stream_options", "alt"}

  function DropReserved(layer: map<string, Json>): map<string, Json> { layer - RESERVED }

  datatype Outcome = Failed | Applied(body: Json, ignored: set<string>)

  const NULL := Leaf("null")

  /** `decodeObject` takes objects, and `null` for an empty one. */
  predicate IsLayer(layer: Option<Json>) { layer.Some? ==> layer.value.Obj? || layer.value == NULL }

  /** An absent layer is an empty one. */
  function LayerOf(layer: Option<Json>): (out: Json)
    ensures out.Obj?
  {
    if layer.Some? && layer.value.Obj? then layer.value else Obj(map[])
  }

  /** `Apply`.  The body must be an object as soon as there is any layer. */
  function Apply(body: Json, defaults: Option<Json>, overrides: Option<Json>): Outcome {
    if defaults.None? && overrides.None? then Applied(body, {})
    else if !body.Obj? || !IsLayer(defaults) || !IsLayer(overrides) then Failed
    else
      var over := LayerOf(overrides).fields;
      Applied(Overrides(Defaults(body, LayerOf(defaults)), Obj(DropReserved(over))), over.Keys * RESERVED)
  }

  // ----- as the program does it -----

  function DefaultField(b: map<string, Json>, d: map<string, Json>, k: string): Json
    requires k in b || k in d
  {
    if k !in b then d[k] else if k !in d then b[k] else Defaults(b[k], d[k])
  }

  function OverrideField(b: map<string, Json>, o: map<string, Json>, k: string): Json
    requires k in b || k in o
  {
    if k !in b then o[k] else if k !in o then b[k] else Overrides(b[k], o[k])
  }

  lemma FieldByField(b: map<string, Json>, d: map<string, Json>, out: map<string, Json>)
    requires out.Keys == b.Keys + d.Keys
    ensures (forall k :: k in out ==> out[k] == DefaultField(b, d, k)) ==> Obj(out) == Defaults(Obj(b), Obj(d))
    ensures (forall k :: k in out ==> out[k] == OverrideField(b, d, k)) ==> Obj(out) == Overrides(Obj(b), Obj(d))
  {
    var l, r := Defaults(Obj(b), Obj(d)).fields, Overrides(Obj(b), Obj(d)).fields;
    assert l.Keys == out.Keys && r.Keys == out.Keys;
    if forall k :: k in out ==> out[k] == DefaultField(b, d, k) { assert out == l; }
    if forall k :: k in out ==> out[k] == OverrideField(b, d, k) { assert out == r; }
  }

  /** Both layers, by which rule they follow. */
  datatype Layer = Filling | Pressing

  function Layered(rule: Layer, b: map<string, Json>, l: map<string, Json>, k: string): Json
    requires k in b || k in l
  {
    if rule == Filling then DefaultField(b, l, k) else OverrideField(b, l, k)
  }

  /** The body when the keys `done` of the layer have been seen to. */
  function PartWay(rule: Layer, b: map<string, Json>, l: map<string, Json>, done: set<string>): map<string, Json>
    requires done <= l.Keys
  {
    map k | k in b.Keys + done :: if k in done then Layered(rule, b, l, k) else b[k]
  }

  lemma OneMoreKey(rule: Layer, b: map<string, Json>, l: map<string, Json>, todo: set<string>, k: string)
    requires todo <= l.Keys && k in todo
    ensures PartWay(rule, b, l, l.Keys - (todo - {k})) == PartWay(rule, b, l, l.Keys - todo)[k := Layered(rule, b, l, k)]
    ensures k in PartWay(rule, b, l, l.Keys - todo) <==> k in b
    ensures k in b ==> PartWay(rule, b, l, l.Keys - todo)[k] == b[k]
  {}

  lemma FirstSteps(rule: Layer, b: map<string, Json>, l: map<string, Json>)
    ensures PartWay(rule, b, l, l.Keys - l.Keys) == b
  {}

  /** What a layer makes of the body, by the rule it follows. */
  function Merged(rule: Layer, b: Json, l: Json): Json {
    if rule == Filling then Defaults(b, l) else Overrides(b, l)
  }

  lemma AllTheWay(rule: Layer, b: map<string, Json>, l: map<string, Json>)
    ensures Obj(PartWay(rule, b, l, l.Keys)) == Merged(rule, Obj(b), Obj(l))
  {
    FieldByField(b, l, PartWay(rule, b, l, l.Keys));
  }

  method ApplyDefaults(dst: map<string, Json>, src: map<string, Json>, ghost layer: Json) returns (out: map<string, Json>)
    requires layer == Obj(src)
    ensures Obj(out) == Defaults(Obj(dst), layer)
    decreases layer, 1
  {
    FirstSteps(Filling, dst, src);
    out := dst;
    var todo := src.Keys;
    while todo != {}
      invariant todo <= src.Keys && out == PartWay(Filling, dst, src, src.Keys - todo)
      decreases todo
    {
      var k := Pick(todo);
      OneMoreKey(Filling, dst, src, todo, k);
      todo := todo - {k};
      if k !in out {
        out := out[k := src[k]];
      } else {
        var merged := FillValue(out[k], src[k]);
        out := out[k := merged];
      }
    }
    assert src.Keys - todo == src.Keys;
    AllTheWay(Filling, dst, src);
  }

  /** Objects merge; anything else that is there stays. */
  method FillValue(existing: Json, v: Json) returns (out: Json)
    ensures out == Defaults(existing, v)
    decreases v, 2
  {
    out := existing;
    if existing.Obj? && v.Obj? {
      var child := ApplyDefaults(existing.fields, v.fields, v);
      out := Obj(child);
    }
  }

  method ApplyOverrides(dst: map<string, Json>, src: map<string, Json>, ghost layer: Json) returns (out: map<string, Json>)
    requires layer == Obj(src)
    ensures Obj(out) == Overrides(Obj(dst), layer)
    decreases layer, 1
  {
    FirstSteps(Pressing, dst, src);
    out := dst;
    var todo := src.Keys;
    while todo != {}
      invariant todo <= src.Keys && out == PartWay(Pressing, dst, src, src.Keys - todo)
      decreases todo
    {
      var k := Pick(todo);
      OneMoreKey(Pressing, dst, src, todo, k);
      todo := todo - {k};
      if k !in out {
        out := out[k := src[k]];
      } else {
        var merged := PressValue(out[k], src[k]);
        out := out[k := merged];
      }
    }
    assert src.Keys - todo == src.Keys;
    AllTheWay(Pressing, dst, src);
  }

  /** Objects merge; anything else is replaced. */
  method PressValue(existing: Json, v: Json) returns (out: Json)
    ensures out == Overrides(existing, v)
    decreases v, 2
  {
    out := v;
    if existing.Obj? && v.Obj? {
      var child := ApplyOverrides(existing.fields, v.fields, v);
      out := Obj(child);
    }
  }

  method ApplyLayers(body: Json, defaults: Option<Json>, overrides: Option<Json>) returns (outcome: Outcome)
    ensures outcome == Apply(body, defaults, overrides)
  {
    if defaults.None? && overrides.None? {
      return Applied(body, {});
    }
    if !body.Obj? || !IsLayer(defaults) || !IsLayer(overrides) {
      return Failed;
    }
    var def, over := LayerOf(defaults).fields, LayerOf(overrides).fields;
    var root := ApplyDefaults(body.fields, def, Obj(def));
    var ignored := over.Keys * RESERVED;
    over := over - RESERVED;
    root := ApplyOverrides(root, over, Obj(over));
    outcome := Applied(Obj(root), ignored);
  }

  // ----- laws -----

  /** Filling gaps is overriding the other way round. */
  lemma {:induction false} DefaultsAreOverridesReversed(b: Json, d: Json)
    requires b.Obj? && d.Obj?
    ensures Defaults(b, d) == Overrides(d, b)
    decreases d
  {
    var l, r := Defaults(b, d).fields, Overrides(d, b).fields;
    forall k | k in b.fields && k in d.fields ensures Defaults(b.fields[k], d.fields[k]) == Overrides(d.fields[k], b.fields[k]) {
      if b.fields[k].Obj? && d.fields[k].Obj? {
        DefaultsAreOverridesReversed(b.fields[k], d.fields[k]);
      }
    }
    assert l.Keys == r.Keys;
    forall k | k in l ensures l[k] == r[k] {
      assert l[k] == DefaultField(b.fields, d.fields, k) && r[k] == OverrideField(d.fields, b.fields, k);
    }
    assert l == r;
  }

  lemma {:induction false} DefaultsIdempotent(b: Json, d: Json)
    ensures Defaults(Defaults(b, d), d) == Defaults(b, d)
    decreases d
  {
    if b.Obj? && d.Obj? {
      var once := Defaults(b, d);
      forall k | k in once.fields && k in d.fields
        ensures Defaults(once.fields[k], d.fields[k]) == once.fields[k]
      {
        if k in b.fields { DefaultsIdempotent(b.fields[k], d.fields[k]); } else { DefaultsSelf(d.fields[k]); }
      }
      assert Defaults(once, d).fields == once.fields;
    }
  }

  lemma {:induction false} DefaultsSelf(d: Json)
    ensures Defaults(d, d) == d
    decreases d
  {
    if d.Obj? {
      forall k | k in d.fields ensures Defaults(d.fields[k], d.fields[k]) == d.fields[k] { DefaultsSelf(d.fields[k]); }
      assert Defaults(d, d).fields == d.fields;
    }
  }

  lemma {:induction false} OverridesIdempotent(b: Json, o: Json)
    ensures Overrides(Overrides(b, o), o) == Overrides(b, o)
    decreases o
  {
    if o.Obj? {
      var once := Overrides(b, o);
      forall k | k in once.fields && k in o.fields
        ensures Overrides(once.fields[k], o.fields[k]) == once.fields[k]
      {
        if b.Obj? && k in b.fields {
          OverridesIdempotent(b.fields[k], o.fields[k]);
        } else {
          OverridesIdempotent(Leaf(""), o.fields[k]);
        }
      }
      assert Overrides(once, o).fields == once.fields;
    }
  }

  /** What stands at a path. */
  function At(j: Json, path: seq<string>): Option<Json>
    decreases |path|
  {
    if path == [] then Some(j)
    else if j.Obj? && path[0] in j.fields then At(j.fields[path[0]], path[1..])
    else None
  }

  /** The path leaves the layer at some object, so that the layer says nothing about it. */
  predicate Misses(layer: Json, path: seq<string>)
    decreases |path|
  {
    path != [] && layer.Obj? && (path[0] !in layer.fields || Misses(layer.fields[path[0]], path[1..]))
  }

  lemma MissesGoesOn(j: Json, path: seq<string>)
    requires Misses(j, path)
    ensures path != [] && j.Obj?
  {}

  /** Whatever a layer sets to a plain value has that value afterwards; whatever it does not
      mention stays as it was. */
  lemma {:induction false} OverridesAt(b: Json, o: Json, path: seq<string>)
    ensures At(o, path).Some? && At(o, path).value.Leaf? ==> At(Overrides(b, o), path) == At(o, path)
    ensures Misses(o, path) ==> At(Overrides(b, o), path) == At(b, path)
    decreases |path|
  {
    if path != [] && o.Obj? && path[0] in o.fields {
      if b.Obj? && path[0] in b.fields {
        OverridesAt(b.fields[path[0]], o.fields[path[0]], path[1..]);
      } else if Misses(o, path) {
        MissesFindsNothing(o.fields[path[0]], path[1..]);
      }
    } else if path != [] && !b.Obj? && o.Obj? {
      assert At(Overrides(b, o), path) == None;
    }
  }

  lemma {:induction false} MissesFindsNothing(j: Json, path: seq<string>)
    requires Misses(j, path)
    ensures At(j, path) == None
    decreases |path|
  {
    if path[0] in j.fields { MissesFindsNothing(j.fields[path[0]], path[1..]); }
  }

  /** Defaults never touch a plain value that is there, and never a path they do not mention;
      and a plain default arrives wherever the body ends above it in an object. */
  lemma {:induction false} DefaultsAt(b: Json, d: Json, path: seq<string>)
    ensures At(b, path).Some? && At(b, path).value.Leaf? ==> At(Defaults(b, d), path) == At(b, path)
    ensures Misses(d, path) ==> At(Defaults(b, d), path) == At(b, path)
    ensures Misses(b, path) && d.Obj? && At(d, path).Some? ==> At(Defaults(b, d), path) == At(d, path)
    decreases |path|
  {
    if path != [] && b.Obj? && d.Obj? && path[0] in d.fields {
      if path[0] in b.fields {
        DefaultsAt(b.fields[path[0]], d.fields[path[0]], path[1..]);
        if Misses(b, path) { MissesGoesOn(b.fields[path[0]], path[1..]); }
      } else if Misses(d, path) {
        MissesFindsNothing(d.fields[path[0]], path[1..]);
      }
    }
  }

  lemma DroppedAt(o: map<string, Json>, path: seq<string>)
    requires path != []
    ensures path[0] !in RESERVED ==> At(Obj(DropReserved(o)), path) == At(Obj(o), path)
    ensures path[0] !in RESERVED ==> (Misses(Obj(DropReserved(o)), path) <==> Misses(Obj(o), path))
    ensures path[0] in RESERVED ==> Misses(Obj(DropReserved(o)), path)
  {}

  /** The layers together, path by path: every plain override at a non-reserved key wins; a
      path neither layer mentions is untouched; and the reserved keys are what the body and
      the defaults make them, whatever the overrides say. */
  lemma LayersAt(b: Json, d: Json, o: Json, path: seq<string>)
    requires b.Obj? && d.Obj? && o.Obj? && path != []
    ensures var out := Apply(b, Some(d), Some(o));
      && out.Applied?
      && (path[0] !in RESERVED && At(o, path).Some? && At(o, path).value.Leaf? ==> At(out.body, path) == At(o, path))
      && (Misses(d, path) && Misses(o, path) ==> At(out.body, path) == At(b, path))
      && (path[0] in RESERVED ==> At(out.body, path) == At(Defaults(b, d), path))
      && (Misses(o, path) && At(b, path).Some? && At(b, path).value.Leaf? ==> At(out.body, path) == At(b, path))
  {
    DroppedAt(o.fields, path);
    OverridesAt(Defaults(b, d), Obj(DropReserved(o.fields)), path);
    DefaultsAt(b, d, path);
  }

  /** `out` is `b` with the layer `o` pressed through, read at one path: what the layer sets there
      stands; where it has an object, the keys of both are; where it says nothing, `b` stays; and
      beneath a plain value of the layer there is nothing. */
  ghost predicate PressedAt(b: Json, o: Json, out: Json, path: seq<string>) {
    match At(o, path)
    case Some(Leaf(text)) => At(out, path) == Some(Leaf(text))
    case Some(Obj(fields)) =>
      && At(out, path).Some? && At(out, path).value.Obj?
      && At(out, path).value.fields.Keys
           == fields.Keys + (if At(b, path).Some? && At(b, path).value.Obj? then At(b, path).value.fields.Keys else {})
    case None => At(out, path) == if Misses(o, path) then At(b, path) else None
  }

  ghost predicate Pressed(b: Json, o: Json, out: Json) { forall path :: PressedAt(b, o, out, path) }

  lemma {:induction false} OverridesPressAt(b: Json, o: Json, path: seq<string>)
    ensures PressedAt(b, o, Overrides(b, o), path)
    decreases |path|
  {
    if path != [] && o.Obj? {
      var k := path[0];
      if k in o.fields {
        if b.Obj? && k in b.fields {
          OverridesPressAt(b.fields[k], o.fields[k], path[1..]);
        } else if Misses(o, path) {
          MissesFindsNothing(o.fields[k], path[1..]);
        }
      }
    }
  }

  /** Pressing through is all there is to know about it: one result, and no other, fits. */
  lemma {:induction false} PressedOnce(b: Json, o: Json, x: Json, y: Json)
    requires Pressed(b, o, x) && Pressed(b, o, y)
    ensures x == y
  {
    forall path | true ensures At(x, path).Some? <==> At(y, path).Some?
      ensures At(x, path).Some? ==> Alike(At(x, path).value, At(y, path).value)
    {
      assert PressedAt(b, o, x, path) && PressedAt(b, o, y, path);
    }
    SameEverywhere(x, y);
  }

  predicate Alike(x: Json, y: Json) {
    if x.Obj? && y.Obj? then x.fields.Keys == y.fields.Keys else x == y
  }

  lemma {:induction false} SameEverywhere(x: Json, y: Json)
    requires forall path :: At(x, path).Some? <==> At(y, path).Some?
    requires forall path :: At(x, path).Some? ==> Alike(At(x, path).value, At(y, path).value)
    ensures x == y
    decreases x
  {
    assert At(x, []) == Some(x) && At(y, []) == Some(y);
    if x.Obj? {
      forall k | k in x.fields ensures x.fields[k] == y.fields[k] {
        forall path | true
          ensures At(x.fields[k], path).Some? <==> At(y.fields[k], path).Some?
          ensures At(x.fields[k], path).Some? ==> Alike(At(x.fields[k], path).value, At(y.fields[k], path).value)
        {
          var longer := [k] + path;
          assert longer[0] == k && longer[1..] == path;
          assert At(x, longer) == At(x.fields[k], path) && At(y, longer) == At(y.fields[k], path);
        }
        SameEverywhere(x.fields[k], y.fields[k]);
      }
      assert x.fields == y.fields;
    }
  }

  /** What a layer that may be absent, or `null`, says. */
  function Said(layer: Option<Json>): map<string, Json> {
    match layer
    case Some(Obj(fields)) => fields
    case _ => map[]
  }

  predicate Readable(layer: Option<Json>) {
    layer.None? || layer.value.Obj? || layer.value == Leaf("null")
  }

  /** Either layer alone, both, or none: the body is pressed through the defaults, so that it keeps
      all it has; then the overrides are, without the four keys that are the service's own. */
  lemma LayersApply(b: Json, d: Option<Json>, o: Option<Json>)
    ensures d.None? && o.None? ==> Apply(b, d, o) == Applied(b, {})
    ensures d.Some? || o.Some? ==> (Apply(b, d, o).Applied? <==> b.Obj? && Readable(d) && Readable(o))
    ensures (d.Some? || o.Some?) && Apply(b, d, o).Applied? ==>
      var own := {"model", "stream", "stream_options", "alt"};
      && Apply(b, d, o).ignored == Said(o).Keys * own
      && exists filled ::
           Pressed(Obj(Said(d)), b, filled) && Pressed(filled, Obj(Said(o) - own), Apply(b, d, o).body)
  {
    if (d.Some? || o.Some?) && Apply(b, d, o).Applied? {
      var filled := Defaults(b, LayerOf(d));
      DefaultsAreOverridesReversed(b, LayerOf(d));
      forall path | true ensures PressedAt(Obj(Said(d)), b, filled, path) { OverridesPressAt(LayerOf(d), b, path); }
      var over := Obj(DropReserved(LayerOf(o).fields));
      forall path | true ensures PressedAt(filled, over, Apply(b, d, o).body, path) { OverridesPressAt(filled, over, path); }
      assert over == Obj(Said(o) - {"model", "stream", "stream_options", "alt"});
      assert Pressed(Obj(Said(d)), b, filled);
    }
  }

  /** A key is reported ignored exactly when it is reserved and overridden, and rightly so:
      whatever else the override said there, or nothing, the body would be the same. */
  lemma IgnoredKeys(b: Json, d: Option<Json>, o: Json, k: string, v: Json)
    requires Apply(b, d, Some(o)).Applied?
    ensures k in Apply(b, d, Some(o)).ignored <==> k in RESERVED && o.Obj? && k in o.fields
    ensures k in Apply(b, d, Some(o)).ignored ==>
      && Apply(b, d, Some(Obj(o.fields[k := v]))).body == Apply(b, d, Some(o)).body
      && Apply(b, d, Some(Obj(o.fields - {k}))).body == Apply(b, d, Some(o)).body
  {
    if k in RESERVED && o.Obj? {
      assert DropReserved(o.fields[k := v]) == DropReserved(o.fields);
      assert DropReserved(o.fields - {k}) == DropReserved(o.fields);
    }
  }

  // ----- applying both layers again -----

  /** Filling the object `o` from `d` adds something to it, at some depth. */
  predicate Grows(o: Json, d: Json)
    decreases d
  {
    && o.Obj? && d.Obj?
    && exists k :: k in d.fields && (k !in o.fields || Grows(o.fields[k], d.fields[k]))
  }

  /** At some path the body holds a plain value, the overrides press in an object, and the
      defaults would add to that object: with the plain value gone, they do so next time. */
  predicate Reopens(b: Json, d: Json, o: Json)
    decreases d
  {
    && b.Obj? && d.Obj? && o.Obj?
    && exists k :: k in b.fields && k in d.fields && k in o.fields &&
         if b.fields[k].Leaf? then Grows(o.fields[k], d.fields[k])
         else Reopens(b.fields[k], d.fields[k], o.fields[k])
  }

  function Both(b: Json, d: Json, o: Json): Json { Overrides(Defaults(b, d), o) }

  /** What `Both` makes of one field. */
  lemma BothAt(b: Json, d: Json, o: Json, k: string)
    requires b.Obj? && d.Obj? && o.Obj?
    ensures var out := Both(b, d, o);
      && out.Obj? && (k in out.fields <==> k in b.fields || k in d.fields || k in o.fields)
      && (k in out.fields ==> out.fields[k] == FieldOfBoth(b, d, o, k))
  {}

  function FieldOfBoth(b: Json, d: Json, o: Json, k: string): Json
    requires b.Obj? && d.Obj? && o.Obj?
    requires k in b.fields || k in d.fields || k in o.fields
  {
    var filled := Defaults(b, d);
    if k in filled.fields && k in o.fields then Overrides(filled.fields[k], o.fields[k])
    else if k in filled.fields then filled.fields[k] else o.fields[k]
  }

  lemma FieldsDecide(a: Json, b: Json)
    requires a.Obj? && b.Obj? && a.fields.Keys == b.fields.Keys
    ensures a == b <==> forall k :: k in a.fields ==> a.fields[k] == b.fields[k]
  {
    if forall k :: k in a.fields ==> a.fields[k] == b.fields[k] { assert a.fields == b.fields; }
  }

  /** An override object comes out of a second round unchanged unless it grows. */
  lemma {:induction false} PressedTwice(d: Json, o: Json)
    ensures Both(o, d, o) == o <==> !Grows(o, d)
    decreases d
  {
    if o.Leaf? || d.Leaf? {
      OverridesSelf(o);
    } else {
      var out := Both(o, d, o);
      forall k | k in o.fields || k in d.fields
        ensures k in out.fields
        ensures k in o.fields ==> (out.fields[k] == o.fields[k] <==> !(k in d.fields && Grows(o.fields[k], d.fields[k])))
      {
        BothAt(o, d, o, k);
        if k in o.fields && k in d.fields { PressedTwice(d.fields[k], o.fields[k]); }
        if k in o.fields { OverridesSelf(o.fields[k]); }
      }
      forall k | k in out.fields ensures k in o.fields || k in d.fields { BothAt(o, d, o, k); }
      if out == o {
        assert !Grows(o, d);
      } else if !Grows(o, d) {
        assert out.fields.Keys == o.fields.Keys;
        FieldsDecide(out, o);
      }
    }
  }

  lemma OverridesSelf(o: Json)
    ensures Overrides(o, o) == o
  {
    if o.Obj? { DefaultsAreOverridesReversed(o, o); }
    DefaultsSelf(o);
  }

  lemma {:induction false} BothTwice(b: Json, d: Json, o: Json)
    requires b.Obj? && d.Obj? && o.Obj?
    ensures Both(Both(b, d, o), d, o) == Both(b, d, o) <==> !Reopens(b, d, o)
    decreases d, 1
  {
    var once := Both(b, d, o);
    var twice := Both(once, d, o);
    assert once.fields.Keys == b.fields.Keys + d.fields.Keys + o.fields.Keys == twice.fields.Keys;
    forall k | k in once.fields
      ensures twice.fields[k] == once.fields[k] <==>
        !(k in b.fields && k in d.fields && k in o.fields &&
          if b.fields[k].Leaf? then Grows(o.fields[k], d.fields[k])
          else Reopens(b.fields[k], d.fields[k], o.fields[k]))
    {
      FieldTwice(b, d, o, k);
    }
    FieldsDecide(twice, once);
  }

  lemma FieldTwice(b: Json, d: Json, o: Json, k: string)
    requires b.Obj? && d.Obj? && o.Obj? && k in Both(b, d, o).fields
    ensures var once := Both(b, d, o);
      && k in Both(once, d, o).fields
      && (Both(once, d, o).fields[k] == once.fields[k] <==>
            !(k in b.fields && k in d.fields && k in o.fields &&
              if b.fields[k].Leaf? then Grows(o.fields[k], d.fields[k])
              else Reopens(b.fields[k], d.fields[k], o.fields[k])))
    decreases d, 0
  {
    var once := Both(b, d, o);
    BothAt(b, d, o, k);
    BothAt(once, d, o, k);
    if k in d.fields && k in o.fields {
      if k in b.fields {
        ValueTwice(b.fields[k], d.fields[k], o.fields[k]);
      } else {
        AddedTwice(d.fields[k], o.fields[k]);
      }
    } else if k in o.fields {
      OverridesIdempotent(if k in b.fields then b.fields[k] else o.fields[k], o.fields[k]);
      OverridesSelf(o.fields[k]);
    } else if k in d.fields {
      DefaultsIdempotent(if k in b.fields then b.fields[k] else d.fields[k], d.fields[k]);
      DefaultsSelf(d.fields[k]);
    }
  }

  lemma ValueTwice(b: Json, d: Json, o: Json)
    ensures Both(Both(b, d, o), d, o) == Both(b, d, o)
       <==> !(if b.Leaf? then Grows(o, d) else Reopens(b, d, o))
    decreases d, 2
  {
    if b.Leaf? {
      PressedTwice(d, o);
    } else if d.Obj? && o.Obj? {
      BothTwice(b, d, o);
    } else {
      OverridesIdempotent(b, o);
    }
  }

  /** A default that the body lacked is merged with its override for good. */
  lemma AddedTwice(d: Json, o: Json)
    ensures var x := Overrides(d, o); Both(x, d, o) == x
    decreases d, 2
  {
    if d.Leaf? || o.Leaf? {
      OverridesSelf(o);
      OverridesIdempotent(d, o);
    } else {
      DefaultsOfNothing(d);
      BothTwice(Obj(map[]), d, o);
    }
  }

  lemma DefaultsOfNothing(d: Json)
    requires d.Obj?
    ensures Defaults(Obj(map[]), d) == d
  {
    FieldByField(map[], d.fields, d.fields);
  }

  /** For every body and all layers: applying the layers twice is applying them once, exactly
      when no override presses an object onto a plain value where a default would add to that
      object.  The reserved keys of the overrides play no part in it. */
  lemma TwiceIsOnceExactly(b: Json, d: Option<Json>, o: Option<Json>)
    requires Apply(b, d, o).Applied?
    ensures Apply(Apply(b, d, o).body, d, o) == Apply(b, d, o)
       <==> !Reopens(b, LayerOf(d), Obj(DropReserved(LayerOf(o).fields)))
  {
    if d.Some? || o.Some? {
      BothTwice(b, LayerOf(d), Obj(DropReserved(LayerOf(o).fields)));
    } else {
      assert LayerOf(d) == Obj(map[]);
    }
  }

  ghost predicate TwiceIsOnce(b: Json, d: Option<Json>, o: Option<Json>) {
    Apply(b, d, o).Applied? && Apply(Apply(b, d, o).body, d, o) == Apply(b, d, o)
  }

  /** An input for which it fails: the override presses an empty object onto a plain value. */
  lemma ApplyIsNotIdempotent()
    ensures var b, d, o := Obj(map["k" := Leaf("1")]), Obj(map["k" := Obj(map["a" := Leaf("1")])]), Obj(map["k" := Obj(map[])]);
      Apply(b, Some(d), Some(o)).Applied? && !TwiceIsOnce(b, Some(d), Some(o))
  {
    var b, d, o := Obj(map["k" := Leaf("1")]), Obj(map["k" := Obj(map["a" := Leaf("1")])]), Obj(map["k" := Obj(map[])]);
    assert Apply(b, Some(d), Some(o)).Applied?;
    assert DropReserved(o.fields) == o.fields;
    assert Grows(o.fields["k"], d.fields["k"]) by { assert "a" in d.fields["k"].fields; }
    assert Reopens(b, d, o) by { assert "k" in b.fields; }
    TwiceIsOnceExactly(b, Some(d), Some(o));
  }
}
