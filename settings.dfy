/** Reading the scanner's settings (get_settings): the sidecar document is
    given as its parsed node tree, the section FBPParams/LibParams is found
    in document order, and its leaf children become a name-to-text map. */
module Settings {
  import opened Common

  /** A node of the parsed sidecar document, as xml.dom.minidom builds it:
      an element, or a character-data node (text, CDATA section, comment or
      processing instruction), which has no children and carries .data.
      Its nodeName is "#text", "#cdata-section", "#comment" or the
      instruction's target. */
  datatype Node = Element(name: string, children: seq<Node>) | CharData(nodeName: string, data: string)

  /** node.nodeName */
  function NodeName(n: Node): string
  {
    match n
    case Element(name, _) => name
    case CharData(nodeName, _) => nodeName
  }

  /** node.childNodes; a character-data node has none. */
  function ChildNodes(n: Node): seq<Node>
  {
    match n
    case Element(_, children) => children
    case CharData(_, _) => []
  }

  // ---- getElementsByTagName ----

  /** getElementsByTagName(tag) of a node whose children are nodes: every
      element below, in document order, whose name is tag (the node itself
      is not included). */
  function ElementsByTagName(nodes: seq<Node>, tag: string): (r: seq<Node>)
    ensures forall k :: 0 <= k < |r| ==> r[k].Element? && r[k].name == tag
    decreases nodes
  {
    if |nodes| == 0 then [] else ElementsInNode(nodes[0], tag) + ElementsByTagName(nodes[1..], tag)
  }

  function ElementsInNode(n: Node, tag: string): (r: seq<Node>)
    ensures forall k :: 0 <= k < |r| ==> r[k].Element? && r[k].name == tag
    decreases n
  {
    match n
    case CharData(_, _) => []
    case Element(name, children) => (if name == tag then [n] else []) + ElementsByTagName(children, tag)
  }

  /** The reference order: all nodes below, each before its own children
      and after everything in its earlier siblings. */
  function Descendants(nodes: seq<Node>): seq<Node>
    decreases nodes
  {
    if |nodes| == 0 then [] else NodeAndDescendants(nodes[0]) + Descendants(nodes[1..])
  }

  function NodeAndDescendants(n: Node): seq<Node>
    decreases n
  {
    match n
    case CharData(_, _) => [n]
    case Element(_, children) => [n] + Descendants(children)
  }

  /** The elements named tag, keeping their order. */
  function Named(ns: seq<Node>, tag: string): (r: seq<Node>)
  {
    if |ns| == 0 then []
    else (if ns[0].Element? && ns[0].name == tag then [ns[0]] else []) + Named(ns[1..], tag)
  }

  lemma {:induction false} NamedAppend(a: seq<Node>, b: seq<Node>, tag: string)
    ensures Named(a + b, tag) == Named(a, tag) + Named(b, tag)
  {
    if |a| > 0 {
      assert (a + b)[1..] == a[1..] + b;
      NamedAppend(a[1..], b, tag);
    } else {
      assert a + b == b;
    }
  }

  /** The search visits exactly the descendants named tag, in document
      order, so element [0] of its result is the first such element. */
  lemma {:induction false} ElementsByTagNameInOrder(nodes: seq<Node>, tag: string)
    ensures ElementsByTagName(nodes, tag) == Named(Descendants(nodes), tag)
    decreases nodes
  {
    if |nodes| > 0 {
      ElementsInNodeInOrder(nodes[0], tag);
      ElementsByTagNameInOrder(nodes[1..], tag);
      NamedAppend(NodeAndDescendants(nodes[0]), Descendants(nodes[1..]), tag);
    }
  }

  lemma {:induction false} ElementsInNodeInOrder(n: Node, tag: string)
    ensures ElementsInNode(n, tag) == Named(NodeAndDescendants(n), tag)
    decreases n
  {
    match n
    case CharData(_, _) =>
    case Element(_, children) =>
      ElementsByTagNameInOrder(children, tag);
      NamedAppend([n], Descendants(children), tag);
  }

  /** getElementsByTagName('FBPParams')[0].getElementsByTagName('LibParams')[0]:
      the first LibParams in document order below the first FBPParams in
      document order; indexing an empty result raises IndexError. */
  function LibParams(document: seq<Node>): (r: Result<Node>)
    ensures r.Ok? ==> r.value.Element? && r.value.name == "LibParams"
    ensures
      var f := Named(Descendants(document), "FBPParams");
      if f == [] then r == Err(ElementMissing("FBPParams"))
      else
        var l := Named(Descendants(ChildNodes(f[0])), "LibParams");
        if l == [] then r == Err(ElementMissing("LibParams")) else r == Ok(l[0])
  {
    ElementsByTagNameInOrder(document, "FBPParams");
    var fbp := ElementsByTagName(document, "FBPParams");
    if |fbp| == 0 then Err(ElementMissing("FBPParams"))
    else
      ElementsByTagNameInOrder(ChildNodes(fbp[0]), "LibParams");
      var lib := ElementsByTagName(ChildNodes(fbp[0]), "LibParams");
      if |lib| == 0 then Err(ElementMissing("LibParams")) else Ok(lib[0])
  }

  // ---- the parameter list and its dictionary ----

  /** A child that the comprehension keeps: exactly one child node. */
  predicate IsParam(n: Node)
  {
    |ChildNodes(n)| == 1
  }

  /** A kept child whose only child carries .data (no AttributeError):
      any character-data node, not only text. */
  predicate HasText(n: Node)
  {
    !IsParam(n) || ChildNodes(n)[0].CharData?
  }

  function ParamText(n: Node): string
    requires IsParam(n) && HasText(n)
  {
    ChildNodes(n)[0].data
  }

  /** [(n.nodeName, n.childNodes[0].data) for n in nodes if len(n.childNodes) == 1],
      failing at the first kept child whose only child is not text. */
  function Params(nodes: seq<Node>): (r: Result<seq<(string, string)>>)
    ensures r.Ok? <==> forall j :: 0 <= j < |nodes| ==> HasText(nodes[j])
    ensures r.Err? ==> exists j :: 0 <= j < |nodes| && !HasText(nodes[j]) && r.error == NoTextData(NodeName(nodes[j]))
  {
    if |nodes| == 0 then Ok([])
    else
      var front := nodes[..|nodes| - 1];
      var n := nodes[|nodes| - 1];
      var pairs :- Params(front);
      if !IsParam(n) then Ok(pairs)
      else if HasText(n) then Ok(pairs + [(NodeName(n), ParamText(n))])
      else Err(NoTextData(NodeName(n)))
  }

  /** How one more child can make the list fail. */
  lemma ParamsStepErr(nodes: seq<Node>)
    requires |nodes| > 0
    ensures Params(nodes[..|nodes| - 1]).Err? ==> Params(nodes) == Err(Params(nodes[..|nodes| - 1]).error)
    ensures Params(nodes[..|nodes| - 1]).Ok? && Params(nodes).Err? ==>
      !HasText(nodes[|nodes| - 1]) && Params(nodes) == Err(NoTextData(NodeName(nodes[|nodes| - 1])))
  {
  }

  /** nodes[j] is the first child that is kept but carries no .data. */
  predicate FirstWithoutText(nodes: seq<Node>, j: int)
  {
    0 <= j < |nodes| && !HasText(nodes[j]) && forall i :: 0 <= i < j ==> HasText(nodes[i])
  }

  /** The comprehension raises at the first kept child whose only child
      carries no .data. */
  lemma {:induction false} ParamsFirst(nodes: seq<Node>)
    requires Params(nodes).Err?
    ensures exists j :: FirstWithoutText(nodes, j) && Params(nodes).error == NoTextData(NodeName(nodes[j]))
  {
    var front := nodes[..|nodes| - 1];
    ParamsStepErr(nodes);
    if Params(front).Err? {
      ParamsFirst(front);
      var j :| FirstWithoutText(front, j) && Params(front).error == NoTextData(NodeName(front[j]));
      assert FirstWithoutText(nodes, j) by {
        assert nodes[j] == front[j];
        assert forall i :: 0 <= i < j ==> nodes[i] == front[i];
      }
    } else {
      var j := |nodes| - 1;
      assert FirstWithoutText(nodes, j) by {
        assert forall i :: 0 <= i < j ==> nodes[i] == front[i];
      }
    }
  }

  /** dict(pairs): inserted left to right, so a later duplicate wins. */
  function ToMap(pairs: seq<(string, string)>): map<string, string>
  {
    if |pairs| == 0 then map[]
    else ToMap(pairs[..|pairs| - 1])[pairs[|pairs| - 1].0 := pairs[|pairs| - 1].1]
  }

  /** A kept child named like nodes[j] comes at some index. */
  predicate ParamNamed(nodes: seq<Node>, j: int, k: string)
  {
    0 <= j < |nodes| && IsParam(nodes[j]) && NodeName(nodes[j]) == k
  }

  /** nodes[j] is kept and no later kept child has its name. */
  predicate LastParam(nodes: seq<Node>, j: int)
  {
    0 <= j < |nodes| && IsParam(nodes[j])
    && forall j' :: j < j' < |nodes| ==> !ParamNamed(nodes, j', NodeName(nodes[j]))
  }

  /** One more child changes the dictionary only when it is kept. */
  lemma ParamsStep(nodes: seq<Node>)
    requires |nodes| > 0 && Params(nodes).Ok?
    ensures Params(nodes[..|nodes| - 1]).Ok?
    ensures
      var n := nodes[|nodes| - 1];
      var m := ToMap(Params(nodes[..|nodes| - 1]).value);
      ToMap(Params(nodes).value) == if IsParam(n) then m[NodeName(n) := ParamText(n)] else m
  {
    var pairs := Params(nodes).value;
    if IsParam(nodes[|nodes| - 1]) {
      assert pairs[..|pairs| - 1] == Params(nodes[..|nodes| - 1]).value;
    }
  }

  /** The keys of the dictionary are exactly the names of kept children. */
  lemma {:induction false} ParamsMapKeys(nodes: seq<Node>, k: string)
    requires Params(nodes).Ok?
    ensures k in ToMap(Params(nodes).value) <==> exists j :: ParamNamed(nodes, j, k)
  {
    if |nodes| > 0 {
      var last := |nodes| - 1;
      var front := nodes[..last];
      ParamsStep(nodes);
      ParamsMapKeys(front, k);
      if exists j :: ParamNamed(nodes, j, k) {
        var j :| ParamNamed(nodes, j, k);
        if j < last {
          assert ParamNamed(front, j, k);
        }
      }
      if exists j :: ParamNamed(front, j, k) {
        var j :| ParamNamed(front, j, k);
        assert ParamNamed(nodes, j, k);
      }
      if IsParam(nodes[last]) && NodeName(nodes[last]) == k {
        assert ParamNamed(nodes, last, k);
      }
    }
  }

  /** Each name maps to the text of the last kept child of that name. */
  lemma {:induction false} ParamsMapLast(nodes: seq<Node>, j: int)
    requires Params(nodes).Ok? && LastParam(nodes, j)
    ensures HasText(nodes[j])
    ensures NodeName(nodes[j]) in ToMap(Params(nodes).value)
    ensures ToMap(Params(nodes).value)[NodeName(nodes[j])] == ParamText(nodes[j])
  {
    var last := |nodes| - 1;
    var front := nodes[..last];
    ParamsStep(nodes);
    if j < last {
      assert LastParam(front, j) by {
        forall j' | j < j' < |front| ensures !ParamNamed(front, j', NodeName(front[j])) {
          assert !ParamNamed(nodes, j', NodeName(nodes[j]));
        }
      }
      ParamsMapLast(front, j);
      assert !ParamNamed(nodes, last, NodeName(nodes[j]));
    }
  }

  // ---- paths ----

  /** os.path.split(p)[1]: everything after the last '/'. */
  function BaseName(p: string): (r: string)
    ensures forall k :: 0 <= k < |r| ==> r[k] != '/'
    ensures |r| <= |p| && r == p[|p| - |r|..]
    ensures |r| == |p| || p[|p| - |r| - 1] == '/'
  {
    if |p| == 0 || p[|p| - 1] == '/' then "" else BaseName(p[..|p| - 1]) + [p[|p| - 1]]
  }

  /** os.path.join(a, b) for two parts. */
  function JoinPath(a: string, b: string): (r: string)
    ensures |b| > 0 && b[0] == '/' ==> r == b
    ensures (|b| == 0 || b[0] != '/') ==> |r| >= |a| + |b| && r[..|a|] == a && r[|r| - |b|..] == b
    ensures (|b| == 0 || b[0] != '/') ==> r == a + b || r == a + "/" + b
    ensures (|b| == 0 || b[0] != '/') ==> (r == a + "/" + b <==> |a| > 0 && a[|a| - 1] != '/')
  {
    if |b| > 0 && b[0] == '/' then b
    else if |a| == 0 || a[|a| - 1] == '/' then a + b
    else a + "/" + b
  }

  /** The sidecar shares the directory's name and sits inside it. */
  function SettingsFileName(inputPath: string): string
  {
    JoinPath(inputPath, BaseName(inputPath))
  }

  /** get_settings.  isDir is what os.path.isdir says of inputPath; the
      sidecar documents that can be opened, decompressed and parsed are
      given by docs (path to the document's top-level nodes). */
  function GetSettings(inputPath: string, isDir: bool, docs: map<string, seq<Node>>): (r: Result<map<string, string>>)
    ensures r.Ok? ==> "settings_filename" in r.value && r.value["settings_filename"] == SettingsFileName(inputPath)
    ensures !isDir ==> r == Err(NotADirectory)
    ensures isDir && SettingsFileName(inputPath) !in docs ==> r == Err(SettingsUnreadable(SettingsFileName(inputPath)))
    ensures
      var file := SettingsFileName(inputPath);
      isDir && file in docs && LibParams(docs[file]).Err? ==> r == Err(LibParams(docs[file]).error)
    ensures
      var file := SettingsFileName(inputPath);
      && (r.Ok? <==> isDir && file in docs && LibParams(docs[file]).Ok? && Params(ChildNodes(LibParams(docs[file]).value)).Ok?)
      && (isDir && file in docs && LibParams(docs[file]).Ok? && Params(ChildNodes(LibParams(docs[file]).value)).Err? ==>
            r == Err(Params(ChildNodes(LibParams(docs[file]).value)).error))
  {
    if !isDir then Err(NotADirectory)
    else
      var file := SettingsFileName(inputPath);
      if file !in docs then Err(SettingsUnreadable(file))
      else
        var lib :- LibParams(docs[file]);
        var pairs :- Params(ChildNodes(lib));
        Ok(ToMap(pairs)["settings_filename" := file])
  }

  /** The dictionary of a LibParams section with the sidecar path forced
      in under settings_filename. */
  lemma SectionMap(kids: seq<Node>, file: string)
    requires Params(kids).Ok?
    ensures
      var s := ToMap(Params(kids).value)["settings_filename" := file];
      && (forall k :: k in s <==> k == "settings_filename" || exists j :: ParamNamed(kids, j, k))
      && (forall j :: LastParam(kids, j) && NodeName(kids[j]) != "settings_filename" ==>
            NodeName(kids[j]) in s && s[NodeName(kids[j])] == ParamText(kids[j]))
  {
    var m := ToMap(Params(kids).value);
    var s := m["settings_filename" := file];
    forall k ensures k in s <==> k == "settings_filename" || exists j :: ParamNamed(kids, j, k) {
      ParamsMapKeys(kids, k);
    }
    forall j | LastParam(kids, j) && NodeName(kids[j]) != "settings_filename"
      ensures NodeName(kids[j]) in s && s[NodeName(kids[j])] == ParamText(kids[j])
    {
      ParamsMapLast(kids, j);
    }
  }

  /** What a successful get_settings returns: the derived sidecar path
      under settings_filename, and otherwise exactly the kept children of
      LibParams, each name mapped to the untrimmed text of its last
      occurrence. */
  lemma GetSettingsSpec(inputPath: string, isDir: bool, docs: map<string, seq<Node>>)
    requires GetSettings(inputPath, isDir, docs).Ok?
    ensures isDir && SettingsFileName(inputPath) in docs
    ensures LibParams(docs[SettingsFileName(inputPath)]).Ok?
    ensures
      var s := GetSettings(inputPath, isDir, docs).value;
      var kids := ChildNodes(LibParams(docs[SettingsFileName(inputPath)]).value);
      && (forall k :: k in s <==> k == "settings_filename" || exists j :: ParamNamed(kids, j, k))
      && (forall j :: LastParam(kids, j) && NodeName(kids[j]) != "settings_filename" ==>
            NodeName(kids[j]) in s && s[NodeName(kids[j])] == ParamText(kids[j]))
  {
    var file := SettingsFileName(inputPath);
    var kids := ChildNodes(LibParams(docs[file]).value);
    assert Params(kids).Ok?;
    assert GetSettings(inputPath, isDir, docs).value == ToMap(Params(kids).value)["settings_filename" := file];
    SectionMap(kids, file);
  }

  // ---- an example ----

  /** A LibParams section: a whitespace text node, VolSizeX twice with
      different values (the second held in a comment), and an element
      without children. */
  const SampleKids: seq<Node> := [CharData("#text", " "), Element("VolSizeX", [CharData("#text", "64")]), Element("Empty", []), Element("VolSizeX", [CharData("#comment", "32")])]

  lemma SampleParams()
    ensures Params(SampleKids) == Ok([("VolSizeX", "64"), ("VolSizeX", "32")])
  {
    var ws, vx, empty, vx2 := CharData("#text", " "), Element("VolSizeX", [CharData("#text", "64")]), Element("Empty", []), Element("VolSizeX", [CharData("#comment", "32")]);
    assert IsParam(vx) && HasText(vx) && NodeName(vx) == "VolSizeX" && ParamText(vx) == "64";
    assert Params([ws]) == Ok([]) by { assert [ws][..0] == []; }
    assert Params([ws, vx]) == Ok([("VolSizeX", "64")]) by {
      assert [ws, vx][..1] == [ws];
      assert [] + [("VolSizeX", "64")] == [("VolSizeX", "64")];
    }
    assert Params([ws, vx, empty]) == Ok([("VolSizeX", "64")]) by { assert [ws, vx, empty][..2] == [ws, vx]; }
    assert SampleKids[..3] == [ws, vx, empty];
    assert IsParam(vx2) && HasText(vx2) && NodeName(vx2) == "VolSizeX" && ParamText(vx2) == "32";
    assert [("VolSizeX", "64")] + [("VolSizeX", "32")] == [("VolSizeX", "64"), ("VolSizeX", "32")];
  }

  lemma SampleLibParams()
    ensures LibParams([Element("FBPParams", [Element("LibParams", SampleKids)])]) == Ok(Element("LibParams", SampleKids))
  {
    var lib := Element("LibParams", SampleKids);
    var doc := [Element("FBPParams", [lib])];
    ElementsByTagNameInOrder(doc, "FBPParams");
    ElementsByTagNameInOrder([lib], "LibParams");
    assert ElementsByTagName(doc, "FBPParams")[0] == doc[0];
    assert ElementsByTagName([lib], "LibParams")[0] == lib;
  }

  /** The sidecar of directory /d/s is /d/s/s. */
  lemma SampleSettingsFileName()
    ensures SettingsFileName("/d/s") == "/d/s/s"
  {
    assert "/d/s"[..3] == "/d/";
    assert BaseName("/d/") == "";
    assert BaseName("/d/s") == "s";
    assert JoinPath("/d/s", "s") == "/d/s" + "/" + "s";
  }

  lemma SampleToMap()
    ensures ToMap([("VolSizeX", "64"), ("VolSizeX", "32")]) == map["VolSizeX" := "32"]
  {
    var pairs := [("VolSizeX", "64"), ("VolSizeX", "32")];
    assert pairs[..1][..0] == [];
    assert ToMap(pairs[..1]) == map["VolSizeX" := "64"];
  }

  /** get_settings on a small settings file: whitespace and childless
      children are skipped, a comment counts as the text of its parent,
      the later VolSizeX wins, and the sidecar path is added. */
  lemma GetSettingsExample()
    ensures
      var docs := map["/d/s/s" := [Element("FBPParams", [Element("LibParams", SampleKids)])]];
      GetSettings("/d/s", true, docs) == Ok(map["VolSizeX" := "32", "settings_filename" := "/d/s/s"])
  {
    SampleSettingsFileName();
    SampleLibParams();
    assert ChildNodes(Element("LibParams", SampleKids)) == SampleKids;
    SampleParams();
    SampleToMap();
    assert map["VolSizeX" := "32"]["settings_filename" := "/d/s/s"] == map["VolSizeX" := "32", "settings_filename" := "/d/s/s"];
  }
}
