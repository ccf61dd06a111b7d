/** The v0 integration helpers: a colour-name table, required-prop
    checking, animation-option conversion, name-conflict checking and a
    TypeScript interface generator. */
module V0Integration {
  import opened Util
  import opened Json

  // ----------------------------------------------------------- colours

  /** The v0-to-shadcn colour table. */
  const ColorMap: map<string, string> := map[
    "primary" := "primary",
    "secondary" := "secondary",
    "accent" := "accent",
    "background" := "background",
    "foreground" := "foreground",
    "surface" := "card",
    "on-surface" := "card-foreground",
    "inverse" := "primary-foreground"
  ]

  /** `colorMap[v0Color] || v0Color`. Every table value is a non-empty
      string, so the fallback applies exactly to the names outside it. */
  function MapV0ColorToShadcn(v0Color: string): (r: string)
    ensures v0Color in ColorMap ==> r == ColorMap[v0Color]
    ensures v0Color !in ColorMap ==> r == v0Color
  {
    if v0Color in ColorMap && ColorMap[v0Color] != "" then ColorMap[v0Color] else v0Color
  }

  /** Mapping twice is mapping once: every table output is either outside
      the table or maps to itself. */
  lemma MapColorIdempotent(c: string)
    ensures MapV0ColorToShadcn(MapV0ColorToShadcn(c)) == MapV0ColorToShadcn(c)
  {
    if c in ColorMap {
      var out := ColorMap[c];
      assert out in ColorMap ==> ColorMap[out] == out;
    }
  }

  // ------------------------------------------------------------- props

  datatype PropCheck = PropCheck(valid: bool, missing: seq<string>)

  /** `validateV0Props`: `missing` lists the required props absent from
      `props`, in the order required, and `valid` says none is. */
  function ValidateV0Props(props: set<string>, requiredProps: seq<string>): (r: PropCheck)
    ensures forall p :: p in r.missing ==> p in requiredProps && p !in props
    ensures forall p :: p in requiredProps && p !in props ==> p in r.missing
    ensures r.valid <==> forall p :: p in requiredProps ==> p in props
  {
    var missing := Filter(requiredProps, (p: string) => p !in props);
    assert |missing| == 0 <==> forall p :: p in requiredProps ==> p in props by {
      if |missing| != 0 {
        assert missing[0] in missing;
      }
    }
    PropCheck(|missing| == 0, missing)
  }

  /** The check works piece by piece: the props missing from `a + b` are
      those missing from `a` followed by those missing from `b`. With
      `MissingUnit` this fixes `missing`: it keeps the required order. */
  lemma MissingAppend(props: set<string>, a: seq<string>, b: seq<string>)
    ensures ValidateV0Props(props, a + b).missing ==
      ValidateV0Props(props, a).missing + ValidateV0Props(props, b).missing
  {
    FilterAppend(a, b, (p: string) => p !in props);
  }

  /** One required prop is missing exactly when `props` lacks it. */
  lemma MissingUnit(props: set<string>, p: string)
    ensures ValidateV0Props(props, [p]).missing == if p in props then [] else [p]
  {
  }

  /** `checkComponentNameConflict`: exact, case-sensitive membership. */
  function CheckComponentNameConflict(v0ComponentName: string, existing: seq<string>): (r: bool)
    ensures r <==> exists i :: 0 <= i < |existing| && existing[i] == v0ComponentName
  {
    v0ComponentName in existing
  }

  // --------------------------------------------------------- animation

  /** The `transition` option: the given value, or `{ duration: 0.3 }`. */
  datatype Transition = Given(value: Json) | DefaultDuration

  datatype Animation = Animation(initial: Option<Json>, animate: Option<Json>,
                                 exit: Option<Json>, transition: Transition)

  /** `convertV0Animation`. `None` is the TypeError thrown when the
      argument is `undefined` or `null`. */
  function ConvertV0Animation(v0Animation: Option<Json>): (r: Option<Animation>)
    ensures r.None? <==> Nullish(v0Animation)
    ensures r.Some? ==>
      r.value.initial == (if Truthy(Prop(v0Animation, "from")) then Prop(v0Animation, "from")
                          else Prop(v0Animation, "initial")) &&
      r.value.animate == (if Truthy(Prop(v0Animation, "to")) then Prop(v0Animation, "to")
                          else Prop(v0Animation, "animate")) &&
      r.value.exit == Prop(v0Animation, "exit")
    ensures r.Some? && !Truthy(Prop(v0Animation, "transition")) ==>
      r.value.transition == DefaultDuration
    ensures r.Some? && Truthy(Prop(v0Animation, "transition")) ==>
      r.value.transition == Given(Prop(v0Animation, "transition").value)
  {
    if Nullish(v0Animation) then None
    else
      var from := Prop(v0Animation, "from");
      var to := Prop(v0Animation, "to");
      var transition := Prop(v0Animation, "transition");
      Some(Animation(
        if Truthy(from) then from else Prop(v0Animation, "initial"),
        if Truthy(to) then to else Prop(v0Animation, "animate"),
        Prop(v0Animation, "exit"),
        if Truthy(transition) then Given(transition.value) else DefaultDuration))
  }

  // --------------------------------------------------------- interfaces

  /** `typeof value` for a JSON value. */
  function TypeOf(v: Json): string
  {
    match v
    case JNull => "object"
    case JBool(_) => "boolean"
    case JNum(_) => "number"
    case JStr(_) => "string"
    case JArr(_) => "object"
    case JObj(_) => "object"
  }

  function PropLine(e: (string, Json)): string
  {
    "  " + e.0 + "?: " + TypeOf(e.1) + ";"
  }

  function PropLines(entries: seq<(string, Json)>): (r: seq<string>)
    ensures |r| == |entries| && forall i :: 0 <= i < |entries| ==> r[i] == PropLine(entries[i])
  {
    seq(|entries|, i requires 0 <= i < |entries| => PropLine(entries[i]))
  }

  /** `generatePropsInterface`: the entries of the sample, in order, one
      optional member per line. */
  function GeneratePropsInterface(componentName: string, sampleProps: seq<(string, Json)>): string
  {
    "interface " + componentName + "Props {\n" + Join(PropLines(sampleProps), '\n') + "\n}"
  }

  lemma JoinCons(first: string, rest: seq<string>, sep: char)
    requires rest != []
    ensures Join([first] + rest, sep) == first + [sep] + Join(rest, sep)
  {
    assert ([first] + rest)[1..] == rest;
  }

  lemma {:induction false} JoinSnoc(init: seq<string>, last: string, sep: char)
    requires init != []
    ensures Join(init + [last], sep) == Join(init, sep) + [sep] + last
    decreases |init|
  {
    if |init| == 1 {
      assert init + [last] == [init[0]] + [last];
      JoinCons(init[0], [last], sep);
    } else {
      assert init + [last] == [init[0]] + (init[1..] + [last]);
      JoinCons(init[0], init[1..] + [last], sep);
      JoinSnoc(init[1..], last, sep);
      JoinCons(init[0], init[1..], sep);
    }
  }

  /** Read line by line, the interface is its header, one member line per
      sample entry (a single empty line for an empty sample) and the
      closing brace, provided no name contains a line break. */
  lemma InterfaceLines(componentName: string, sampleProps: seq<(string, Json)>)
    requires '\n' !in componentName
    requires forall i :: 0 <= i < |sampleProps| ==> '\n' !in sampleProps[i].0
    ensures var body := if sampleProps == [] then [""] else PropLines(sampleProps);
      Split(GeneratePropsInterface(componentName, sampleProps), '\n') ==
        ["interface " + componentName + "Props {"] + body + ["}"]
  {
    var header := "interface " + componentName + "Props {";
    var body := if sampleProps == [] then [""] else PropLines(sampleProps);
    InterfaceAsJoin(componentName, sampleProps);
    LinesHaveNoBreak(componentName, sampleProps);
    SplitJoin([header] + body + ["}"], '\n');
  }

  lemma InterfaceAsJoin(componentName: string, sampleProps: seq<(string, Json)>)
    ensures var body := if sampleProps == [] then [""] else PropLines(sampleProps);
      GeneratePropsInterface(componentName, sampleProps) ==
        Join(["interface " + componentName + "Props {"] + body + ["}"], '\n')
  {
    var header := "interface " + componentName + "Props {";
    var body := if sampleProps == [] then [""] else PropLines(sampleProps);
    var jb := Join(body, '\n');
    assert Join(PropLines(sampleProps), '\n') == jb;
    JoinSnoc(body, "}", '\n');
    JoinCons(header, body + ["}"], '\n');
    assert [header] + body + ["}"] == [header] + (body + ["}"]);
    TemplateShape("interface " + componentName, jb);
  }

  /** The template literal, cut at its two line breaks. */
  lemma TemplateShape(x: string, j: string)
    ensures x + "Props {\n" + j + "\n}" == (x + "Props {") + ['\n'] + (j + ['\n'] + "}")
  {
    assert "Props {\n" == "Props {" + ['\n'];
    assert "\n}" == ['\n'] + "}";
  }

  lemma LinesHaveNoBreak(componentName: string, sampleProps: seq<(string, Json)>)
    requires '\n' !in componentName
    requires forall i :: 0 <= i < |sampleProps| ==> '\n' !in sampleProps[i].0
    ensures var body := if sampleProps == [] then [""] else PropLines(sampleProps);
      forall p :: p in ["interface " + componentName + "Props {"] + body + ["}"] ==> '\n' !in p
  {
    var header := "interface " + componentName + "Props {";
    var lines := PropLines(sampleProps);
    var body := if sampleProps == [] then [""] else lines;
    forall p | p in [header] + body + ["}"] ensures '\n' !in p {
      if p in body && sampleProps != [] {
        var i :| 0 <= i < |lines| && lines[i] == p;
        PropLineNoBreak(sampleProps[i]);
      }
    }
  }

  lemma PropLineNoBreak(e: (string, Json))
    requires '\n' !in e.0
    ensures '\n' !in PropLine(e)
  {
    assert '\n' !in TypeOf(e.1);
  }
}
