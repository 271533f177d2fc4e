/**
  Pre-generation of a campaign's files: for every tick, a copy of the sample document
  with a fresh outage id, a list of delivery nodes cloned from the sample's first
  node, and a `_meta` summary; and the name of the file it is written to.
 */
module Generation {
  import opened Wrappers
  import opened JavaLang
  import opened JsonTree
  import opened Counts

  /** Why generating the files throws. */
  datatype GenError =
    /** The sample file cannot be read, or does not hold JSON: an `IOException`. */
    | Unreadable
    /** `readValue(json, Map.class)` of a document that is neither an object nor `null`. */
    | NotAnObject
    /** A `NullPointerException`: a `null` sample, outage, node list or first node. */
    | NullReference
    /** A `ClassCastException`: an outage that is not an object, a node list that is not an array, a first node that is not an object. */
    | WrongType
    /** The local time scheduled for a tick lies outside the range of `OffsetDateTime`. */
    | TimeOutOfRange

  /** The configuration and clock readings a generation run uses. */
  datatype Generator = Generator(
    maxOutagesTotal: Int32,
    avgNodesPerFile: Int32,
    /** The ramp curve: the intensity at tick `t` of `N`. */
    ramp: (int, int) -> Intensity,
    /** The clock, in whole seconds since the epoch. */
    nowSecond: int,
    /** `OffsetDateTime.now(ZoneOffset.UTC).toString()`. */
    generatedAt: string,
    /** `OffsetDateTime.now(PHOENIX).toString()`. */
    scheduledFor: string,
    /** The Phoenix local time of an epoch second in the pattern `yyyy-MM-dd'T'HH-mm-ssXXX`; `None` outside the range of `OffsetDateTime`. */
    stamp: int -> Option<string>)

  // ---------------------------------------------------------------------------
  // One file: generateFromSample
  // ---------------------------------------------------------------------------

  /** The parts of the sample a file is built from. */
  datatype SampleParts = SampleParts(root: map<string, Json>, outage: map<string, Json>, template: map<string, Json>)

  /**
    The casts and dereferences of `generateFromSample`: `outage` defaults to an empty
    object and `deliveryNodes` to an empty list when absent (a key present with `null`
    keeps the `null`); the node template is the first node, or an empty object when
    there is none.
   */
  function ReadSample(sample: Json): (p: Result<SampleParts, GenError>)
    ensures p.Ok? <==> sample.JObj? && SampleIsUsable(sample.fields)
    ensures p.Ok? ==> p.value.root == sample.fields
    ensures p.Ok? ==> p.value.outage == (if "outage" in sample.fields then sample.fields["outage"].fields else map[])
    ensures p.Ok? ==>
              p.value.template ==
                (if "deliveryNodes" in sample.fields && sample.fields["deliveryNodes"].items != []
                 then sample.fields["deliveryNodes"].items[0].fields else map[])
  {
    match sample
    case JNull => Err(NullReference)
    case JObj(root) =>
      var outage := GetOrDefault(root, "outage", JObj(map[]));
      var nodes := GetOrDefault(root, "deliveryNodes", JArr([]));
      if !(outage.JObj? || outage.JNull?) || !(nodes.JArr? || nodes.JNull?) then Err(WrongType)
      else if outage.JNull? || nodes.JNull? then Err(NullReference)
      else if nodes.items == [] then Ok(SampleParts(root, outage.fields, map[]))
      else if nodes.items[0].JObj? then Ok(SampleParts(root, outage.fields, nodes.items[0].fields))
      else if nodes.items[0].JNull? then Err(NullReference)
      else Err(WrongType)
    case _ => Err(NotAnObject)
  }

  /** The sample shapes a file can be generated from, stated key by key. */
  predicate SampleIsUsable(root: map<string, Json>)
  {
    && ("outage" in root ==> root["outage"].JObj?)
    && ("deliveryNodes" in root ==> root["deliveryNodes"].JArr?)
    && ("deliveryNodes" in root && root["deliveryNodes"].items != [] ==> root["deliveryNodes"].items[0].JObj?)
  }

  /** `String.format("dn-%05d", i)`. */
  function DnId(i: nat): string
  {
    "dn-" + ZeroPad(i, 5)
  }

  /** The `i`-th node of a file: a copy of the template with its id and customer count set. */
  function Node(template: map<string, Json>, i: nat, customers: int): Json
  {
    JObj(template["dnId" := JStr(DnId(i))]["customersAffected" := JNum(customers)])
  }

  /** The node list of a file with `count` nodes. */
  function NodeList(template: map<string, Json>, count: nat, customers: int): seq<Json>
  {
    seq(count, k requires 0 <= k < count => Node(template, k + 1, customers))
  }

  /** The `_meta` summary; the floating-point `targetReach` is not part of this model. */
  function Meta(t: int, n: int, outagesThisFile: int, nodesThisFile: int): map<string, Json>
  {
    map["fileIndex" := JNum(t), "totalPlanned" := JNum(n),
        "outagesThisFile" := JNum(outagesThisFile), "nodesThisFile" := JNum(nodesThisFile)]
  }

  /** The number of nodes of file `t` of `n`. */
  function NodeCount(g: Generator, t: int, n: int): (c: int)
    ensures IsInt(c) && c >= 1
  {
    NodesThisFile(AvgNodes(g.avgNodesPerFile), g.ramp(t, n))
  }

  /** The document written for tick `t` of `n`, built from the parts of the sample. */
  function Assemble(p: SampleParts, t: int, n: int, outageId: string, g: Generator): Json
    requires n >= 1
  {
    var r := g.ramp(t, n);
    var outage := p.outage["id" := JStr(outageId)]["generatedAt" := JStr(g.generatedAt)]["scheduledFor" := JStr(g.scheduledFor)];
    var nodes := NodeList(p.template, NodeCount(g, t, n), CustomersAffected(r));
    var meta := Meta(t, n, OutagesThisFile(g.maxOutagesTotal, n), NodeCount(g, t, n));
    JObj(p.root["outage" := JObj(outage)]["deliveryNodes" := JArr(nodes)]["_meta" := JObj(meta)])
  }

  /** What `generateFromSample(sample, t, N, outageId)` returns or throws. */
  function GeneratedPayload(sample: Json, t: int, n: int, outageId: string, g: Generator): Result<Json, GenError>
    requires n >= 1
  {
    match ReadSample(sample)
    case Err(e) => Err(e)
    case Ok(p) => Ok(Assemble(p, t, n, outageId, g))
  }

  /** The loop of `generateFromSample` that clones the template once per node. */
  method BuildNodes(template: map<string, Json>, count: int, r: Intensity) returns (nodes: seq<Json>)
    requires count >= 1
    ensures |nodes| == count
    ensures forall k :: 0 <= k < count ==> nodes[k] == Node(template, k + 1, CustomersAffected(r))
  {
    nodes := [];
    var i := 1;
    while i <= count
      invariant 1 <= i <= count + 1
      invariant |nodes| == i - 1
      invariant forall k :: 0 <= k < i - 1 ==> nodes[k] == Node(template, k + 1, CustomersAffected(r))
    {
      var customers := CustomersAffected(r);
      nodes := nodes + [Node(template, i, customers)];
      i := i + 1;
    }
  }

  /** `generateFromSample`: the copy of the sample for tick `t` of `n`. */
  method GenerateFromSample(sample: Json, t: int, n: int, outageId: string, g: Generator) returns (res: Result<Json, GenError>)
    requires 1 <= t <= n
    ensures res == GeneratedPayload(sample, t, n, outageId, g)
  {
    var parts := ReadSample(sample);
    if parts.Err? {
      return Err(parts.error);
    }
    var p := parts.value;
    var r := g.ramp(t, n);
    var outagesThisFile := OutagesThisFile(g.maxOutagesTotal, n);
    var avgNodes := AvgNodes(g.avgNodesPerFile);
    var nodesThisFile := NodesThisFile(avgNodes, r);
    var outage := p.outage["id" := JStr(outageId)]["generatedAt" := JStr(g.generatedAt)]["scheduledFor" := JStr(g.scheduledFor)];
    var nodes := BuildNodes(p.template, nodesThisFile, r);
    assert nodes == NodeList(p.template, nodesThisFile, CustomersAffected(r));
    var root := p.root["outage" := JObj(outage)]["deliveryNodes" := JArr(nodes)];
    root := root["_meta" := JObj(Meta(t, n, outagesThisFile, nodesThisFile))];
    return Ok(JObj(root));
  }

  // ---------------------------------------------------------------------------
  // All files: preGenerateAll
  // ---------------------------------------------------------------------------

  /** A pre-generated file: its name in the output directory and the document it holds. */
  datatype PregenFile = PregenFile(name: string, body: Json)

  /**
    `"outage-"` followed by the Phoenix local time `period.getSeconds() * (t - 1)` seconds
    after now; the product is `long` arithmetic.
   */
  function OutageId(g: Generator, periodSeconds: int, t: int): Option<string>
  {
    match g.stamp(g.nowSecond + LongWrap(periodSeconds * (t - 1)))
    case None => None
    case Some(text) => Some("outage-" + text)
  }

  /** `String.format("%03d-%s.json", t, outageId)`. */
  function FileName(t: nat, outageId: string): string
  {
    ZeroPad(t, 3) + "-" + outageId + ".json"
  }

  /** The file of tick `t` of `n`, or why producing it throws. */
  function PlannedFile(sample: Json, t: nat, n: int, periodSeconds: int, g: Generator): Result<PregenFile, GenError>
    requires 1 <= t <= n
  {
    match OutageId(g, periodSeconds, t)
    case None => Err(TimeOutOfRange)
    case Some(id) =>
      match GeneratedPayload(sample, t, n, id, g)
      case Err(e) => Err(e)
      case Ok(body) => Ok(PregenFile(FileName(t, id), body))
  }

  /** The files of ticks 1 to `k`, in order, or the error of the first tick that throws. */
  function FilesUpTo(sample: Json, k: nat, n: int, periodSeconds: int, g: Generator): Result<seq<PregenFile>, GenError>
    requires k <= n
  {
    if k == 0 then Ok([])
    else
      match FilesUpTo(sample, k - 1, n, periodSeconds, g)
      case Err(e) => Err(e)
      case Ok(files) =>
        match PlannedFile(sample, k, n, periodSeconds, g)
        case Err(e) => Err(e)
        case Ok(f) => Ok(files + [f])
  }

  /**
    What `preGenerateAll(N, period)` returns or throws, for the sample document as read
    (`None` when the file cannot be read as JSON): it must be an object or `null`, whatever
    `N` is; then ticks 1 to `N` are produced in order.
   */
  function Pregenerated(sample: Option<Json>, n: int, periodSeconds: int, g: Generator): Result<seq<PregenFile>, GenError>
  {
    if sample.None? then Err(Unreadable)
    else if !(sample.value.JObj? || sample.value.JNull?) then Err(NotAnObject)
    else if n <= 0 then Ok([])
    else FilesUpTo(sample.value, n, n, periodSeconds, g)
  }

  /** `preGenerateAll`: the stream over ticks 1 to `N`, stopping at the first tick that throws. */
  method PreGenerateAll(document: Option<Json>, n: int, periodSeconds: int, g: Generator) returns (res: Result<seq<PregenFile>, GenError>)
    ensures res == Pregenerated(document, n, periodSeconds, g)
  {
    if document.None? {
      return Err(Unreadable);
    }
    var sample := document.value;
    if !(sample.JObj? || sample.JNull?) {
      return Err(NotAnObject);
    }
    var files: seq<PregenFile> := [];
    var t := 1;
    while t <= n
      invariant 1 <= t && (n >= 1 ==> t <= n + 1)
      invariant n >= 1 ==> FilesUpTo(sample, t - 1, n, periodSeconds, g) == Ok(files)
      invariant n < 1 ==> files == []
    {
      var id := OutageId(g, periodSeconds, t);
      if id.None? {
        FilesUpToStep(sample, t, n, periodSeconds, g);
        FirstErrorStays(sample, t, n, periodSeconds, g);
        return Err(TimeOutOfRange);
      }
      var body := GenerateFromSample(sample, t, n, id.value, g);
      FilesUpToStep(sample, t, n, periodSeconds, g);
      if body.Err? {
        FirstErrorStays(sample, t, n, periodSeconds, g);
        return Err(body.error);
      }
      assert PlannedFile(sample, t, n, periodSeconds, g) == Ok(PregenFile(FileName(t, id.value), body.value));
      files := files + [PregenFile(FileName(t, id.value), body.value)];
      t := t + 1;
    }
    if n >= 1 {
      assert t == n + 1;
    }
    return Ok(files);
  }

  // ---------------------------------------------------------------------------
  // Lemmas
  // ---------------------------------------------------------------------------

  /** Once a tick throws, no later tick runs: the error is the result of the whole run. */
  lemma {:induction false} FirstErrorStays(sample: Json, k: nat, n: int, periodSeconds: int, g: Generator)
    requires 1 <= k <= n
    requires FilesUpTo(sample, k, n, periodSeconds, g).Err?
    ensures FilesUpTo(sample, n, n, periodSeconds, g) == FilesUpTo(sample, k, n, periodSeconds, g)
    decreases n - k
  {
    if k < n {
      assert FilesUpTo(sample, k + 1, n, periodSeconds, g) == FilesUpTo(sample, k, n, periodSeconds, g);
      FirstErrorStays(sample, k + 1, n, periodSeconds, g);
    }
  }

  /** One more tick: a run of `k` ticks succeeds when the first `k - 1` and tick `k` do. */
  lemma FilesUpToStep(sample: Json, k: nat, n: int, periodSeconds: int, g: Generator)
    requires 1 <= k <= n
    ensures FilesUpTo(sample, k, n, periodSeconds, g).Ok? <==>
      FilesUpTo(sample, k - 1, n, periodSeconds, g).Ok? && PlannedFile(sample, k, n, periodSeconds, g).Ok?
    ensures FilesUpTo(sample, k, n, periodSeconds, g).Ok? ==>
      FilesUpTo(sample, k, n, periodSeconds, g).value
        == FilesUpTo(sample, k - 1, n, periodSeconds, g).value + [PlannedFile(sample, k, n, periodSeconds, g).value]
  {
  }

  /** A successful run of `k` ticks holds exactly `k` files, the one of tick `i + 1` at index `i`. */
  lemma {:induction false} FilesUpToTicks(sample: Json, k: nat, n: int, periodSeconds: int, g: Generator)
    requires k <= n
    requires FilesUpTo(sample, k, n, periodSeconds, g).Ok?
    ensures var files := FilesUpTo(sample, k, n, periodSeconds, g).value;
      |files| == k &&
      forall i :: 0 <= i < k ==> PlannedFile(sample, i + 1, n, periodSeconds, g) == Ok(files[i])
  {
    if k > 0 {
      FilesUpToStep(sample, k, n, periodSeconds, g);
      FilesUpToTicks(sample, k - 1, n, periodSeconds, g);
      var files := FilesUpTo(sample, k, n, periodSeconds, g).value;
      var prev := FilesUpTo(sample, k - 1, n, periodSeconds, g).value;
      assert files == prev + [PlannedFile(sample, k, n, periodSeconds, g).value];
      forall i | 0 <= i < k
        ensures PlannedFile(sample, i + 1, n, periodSeconds, g) == Ok(files[i])
      {
        if i < k - 1 {
          assert files[i] == prev[i];
        }
      }
    }
  }

  /** Pre-generation yields one file per planned tick, none when no tick is planned. */
  lemma PregeneratedTicks(sample: Option<Json>, n: int, periodSeconds: int, g: Generator)
    requires Pregenerated(sample, n, periodSeconds, g).Ok?
    ensures var files := Pregenerated(sample, n, periodSeconds, g).value;
      |files| == Max(0, n) &&
      forall i :: 0 <= i < |files| ==> PlannedFile(sample.value, i + 1, n, periodSeconds, g) == Ok(files[i])
  {
    if n > 0 {
      FilesUpToTicks(sample.value, n, n, periodSeconds, g);
    }
  }

  /**
    The outage id of tick `t` is "outage-" followed by the instant of that tick
    (`now + period * (t - 1)`, wrapping as a `long`) in the outage zone; there is none
    exactly when that instant is outside the range of `OffsetDateTime`.
   */
  lemma OutageIdParts(g: Generator, periodSeconds: int, t: int)
    ensures var at := g.nowSecond + LongWrap(periodSeconds * (t - 1));
      var id := OutageId(g, periodSeconds, t);
      && (id.None? <==> g.stamp(at).None?)
      && (id.Some? ==> |id.value| >= 7 && id.value[..7] == "outage-" && id.value[7..] == g.stamp(at).value)
  {
  }

  /** The stamp formatter gives different instants different text wherever it gives text. */
  ghost predicate StampInjective(g: Generator)
  {
    forall a, b :: g.stamp(a).Some? && g.stamp(a) == g.stamp(b) ==> a == b
  }

  /**
    Two ticks of a campaign get different outage ids when the formatter is injective and
    the offset of the later tick, `period * (j - 1)` seconds, does not overflow a `long`.
   */
  lemma OutageIdsDistinct(g: Generator, periodSeconds: int, i: int, j: int)
    requires 1 <= periodSeconds && 1 <= i < j && IsLong(periodSeconds * (j - 1))
    requires StampInjective(g)
    requires OutageId(g, periodSeconds, i).Some? && OutageId(g, periodSeconds, j).Some?
    ensures OutageId(g, periodSeconds, i) != OutageId(g, periodSeconds, j)
  {
    OffsetsOrdered(periodSeconds, i, j);
    var a := g.nowSecond + LongWrap(periodSeconds * (i - 1));
    var b := g.nowSecond + LongWrap(periodSeconds * (j - 1));
    assert a != b;
    OutageIdParts(g, periodSeconds, i);
    OutageIdParts(g, periodSeconds, j);
    assert g.stamp(a) != g.stamp(b);
  }

  /** A later tick has a larger offset, and the earlier one fits a `long` when the later one does. */
  lemma OffsetsOrdered(p: int, i: int, j: int)
    requires 1 <= p && 1 <= i < j && IsLong(p * (j - 1))
    ensures 0 <= p * (i - 1) < p * (j - 1) && IsLong(p * (i - 1))
  {
    assert p * (j - 1) - p * (i - 1) == p * (j - i);
  }

  /** A tick's offset fits a `long` when a later tick's does. */
  lemma OffsetFits(p: int, k: int, m: int)
    requires 1 <= p && 0 <= k <= m && IsLong(p * m)
    ensures IsLong(p * ((k + 1) - 1))
  {
    assert (k + 1) - 1 == k;
    assert p * m - p * k == p * (m - k);
  }

  /** The outage record id a generated document carries, `outage.id`, if it has one. */
  function RecordId(doc: Json): (id: Option<Json>)
    ensures id.Some? <==> doc.JObj? && "outage" in doc.fields && doc.fields["outage"].JObj? && "id" in doc.fields["outage"].fields
    ensures id.Some? ==> id.value == doc.fields["outage"].fields["id"]
  {
    if doc.JObj? && "outage" in doc.fields && doc.fields["outage"].JObj? && "id" in doc.fields["outage"].fields
    then Some(doc.fields["outage"].fields["id"])
    else None
  }

  /** The file of tick `t` records the outage id of tick `t`. */
  lemma PlannedRecordId(sample: Json, t: nat, n: int, periodSeconds: int, g: Generator, f: PregenFile)
    requires 1 <= t <= n && PlannedFile(sample, t, n, periodSeconds, g) == Ok(f)
    ensures OutageId(g, periodSeconds, t).Some?
    ensures RecordId(f.body) == Some(JStr(OutageId(g, periodSeconds, t).value))
  {
    var id := OutageId(g, periodSeconds, t).value;
    GeneratedPayloadFacts(sample, t, n, id, g);
  }

  /** The file of tick `t` of a run, at index `t - 1`, records the outage id of tick `t`. */
  lemma PregeneratedRecordIds(sample: Option<Json>, n: int, periodSeconds: int, g: Generator)
    requires Pregenerated(sample, n, periodSeconds, g).Ok?
    ensures var files := Pregenerated(sample, n, periodSeconds, g).value;
      && |files| == Max(0, n)
      && forall t :: 1 <= t <= |files| ==>
           OutageId(g, periodSeconds, t).Some? &&
           RecordId(files[t - 1].body) == Some(JStr(OutageId(g, periodSeconds, t).value))
  {
    var files := Pregenerated(sample, n, periodSeconds, g).value;
    PregeneratedTicks(sample, n, periodSeconds, g);
    forall t | 1 <= t <= |files|
      ensures OutageId(g, periodSeconds, t).Some? &&
              RecordId(files[t - 1].body) == Some(JStr(OutageId(g, periodSeconds, t).value))
    {
      PlannedRecordId(sample.value, t, n, periodSeconds, g, files[t - 1]);
    }
  }

  /**
    The files of one run carry pairwise distinct outage record ids, provided the formatter
    is injective and the offset of the last tick does not overflow a `long`.
   */
  lemma PregeneratedRecordIdsDistinct(sample: Option<Json>, n: int, periodSeconds: int, g: Generator)
    requires Pregenerated(sample, n, periodSeconds, g).Ok?
    requires 1 <= periodSeconds && IsLong(periodSeconds * (n - 1)) && StampInjective(g)
    ensures var files := Pregenerated(sample, n, periodSeconds, g).value;
      && (forall i :: 0 <= i < |files| ==> RecordId(files[i].body).Some?)
      && (forall i, j :: 0 <= i < j < |files| ==> RecordId(files[i].body) != RecordId(files[j].body))
  {
    PregeneratedRecordIds(sample, n, periodSeconds, g);
    TickRecordIdsDistinct(Pregenerated(sample, n, periodSeconds, g).value, n, periodSeconds, g);
  }

  /** Files that record the outage ids of ticks 1, 2, ... in order record pairwise distinct ids. */
  lemma TickRecordIdsDistinct(files: seq<PregenFile>, n: int, periodSeconds: int, g: Generator)
    requires |files| == Max(0, n)
    requires forall t :: 1 <= t <= |files| ==>
               OutageId(g, periodSeconds, t).Some? &&
               RecordId(files[t - 1].body) == Some(JStr(OutageId(g, periodSeconds, t).value))
    requires 1 <= periodSeconds && IsLong(periodSeconds * (n - 1)) && StampInjective(g)
    ensures forall i :: 0 <= i < |files| ==> RecordId(files[i].body).Some?
    ensures forall i, j :: 0 <= i < j < |files| ==> RecordId(files[i].body) != RecordId(files[j].body)
  {
    forall i | 0 <= i < |files|
      ensures RecordId(files[i].body).Some?
    {
      assert OutageId(g, periodSeconds, i + 1).Some?;
    }
    forall i, j | 0 <= i < j < |files|
      ensures RecordId(files[i].body) != RecordId(files[j].body)
    {
      OffsetFits(periodSeconds, j, n - 1);
      OutageIdsDistinct(g, periodSeconds, i + 1, j + 1);
    }
  }

  /**
    A file name reads back as its tick, a dash, the outage id and ".json": the digits before
    the dash (at least three) denote the tick.
   */
  lemma FileNameParts(t: nat, outageId: string)
    ensures var name := FileName(t, outageId);
      var k := |name| - 6 - |outageId|;
      && |name| >= 9 + |outageId|
      && AllDigits(name[..k]) && DigitsValue(name[..k]) == t
      && name[k] == '-' && name[k + 1..|name| - 5] == outageId && name[|name| - 5..] == ".json"
  {
    ZeroPadValue(t, 3);
    assert FileName(t, outageId)[..|ZeroPad(t, 3)|] == ZeroPad(t, 3);
  }

  /** A node id is "dn-" followed by at least five digits that denote the node's number. */
  lemma DnIdParts(i: nat)
    ensures |DnId(i)| >= 8 && DnId(i)[..3] == "dn-"
    ensures AllDigits(DnId(i)[3..]) && DigitsValue(DnId(i)[3..]) == i
  {
    ZeroPadValue(i, 5);
    assert DnId(i)[3..] == ZeroPad(i, 5);
  }

  /** Node ids are pairwise distinct within a file. */
  lemma DnIdInjective(i: nat, j: nat)
    requires i != j
    ensures DnId(i) != DnId(j)
  {
    ZeroPadInjective(i, j, 5);
    assert DnId(i)[3..] == ZeroPad(i, 5);
    assert DnId(j)[3..] == ZeroPad(j, 5);
  }

  /** `dn-%05d` pads to five digits: the seventh node is "dn-00007". */
  lemma DnIdExample()
    ensures DnId(7) == "dn-00007"
  {
    assert Decimal(7) == "7";
  }

  /**
    The node list of a file has `nodesThisFile` entries; entry `k` is the template with
    id `dn-%05d` of `k + 1` and the common customer count; the ids are pairwise distinct.
   */
  lemma NodeListFacts(template: map<string, Json>, count: nat, customers: int)
    ensures |NodeList(template, count, customers)| == count
    ensures forall k :: 0 <= k < count ==>
      var node := NodeList(template, count, customers)[k];
      && node.JObj?
      && node.fields["dnId"] == JStr(DnId(k + 1))
      && node.fields["customersAffected"] == JNum(customers)
      && node.fields.Keys == template.Keys + {"dnId", "customersAffected"}
      && forall key :: key in template && key != "dnId" && key != "customersAffected" ==> node.fields[key] == template[key]
    ensures forall j, k :: 0 <= j < k < count ==>
      NodeList(template, count, customers)[j].fields["dnId"] != NodeList(template, count, customers)[k].fields["dnId"]
  {
    var nodes := NodeList(template, count, customers);
    forall j, k | 0 <= j < k < count
      ensures nodes[j].fields["dnId"] != nodes[k].fields["dnId"]
    {
      DnIdInjective(j + 1, k + 1);
    }
  }

  /**
    A generated document keeps every key of the sample except `outage`, `deliveryNodes` and
    `_meta`; its outage carries the tick's id; it has `nodesThisFile` nodes; and `_meta`
    records the tick, the plan and both counts.
   */
  lemma GeneratedPayloadFacts(sample: Json, t: int, n: int, outageId: string, g: Generator)
    requires 1 <= t <= n
    requires GeneratedPayload(sample, t, n, outageId, g).Ok?
    ensures var doc := GeneratedPayload(sample, t, n, outageId, g).value;
      var count := NodeCount(g, t, n);
      && sample.JObj? && doc.JObj?
      && doc.fields.Keys == sample.fields.Keys + {"outage", "deliveryNodes", "_meta"}
      && (forall key :: key in sample.fields && key !in {"outage", "deliveryNodes", "_meta"} ==> doc.fields[key] == sample.fields[key])
      && doc.fields["outage"].JObj? && doc.fields["outage"].fields["id"] == JStr(outageId)
      && doc.fields["outage"].fields == ReadSample(sample).value.outage
           ["id" := JStr(outageId)]["generatedAt" := JStr(g.generatedAt)]["scheduledFor" := JStr(g.scheduledFor)]
      && doc.fields["deliveryNodes"] == JArr(NodeList(ReadSample(sample).value.template, count, CustomersAffected(g.ramp(t, n))))
      && |doc.fields["deliveryNodes"].items| == count >= 1
      && doc.fields["_meta"] == JObj(Meta(t, n, OutagesThisFile(g.maxOutagesTotal, n), count))
  {
  }

  /** A sample without `outage` and `deliveryNodes` keys is usable: both take their defaults and the nodes are bare ids. */
  lemma MinimalSampleIsUsable(root: map<string, Json>)
    requires "outage" !in root && "deliveryNodes" !in root
    ensures ReadSample(JObj(root)) == Ok(SampleParts(root, map[], map[]))
  {
  }

  /**
    File names are pairwise distinct: the name starts with the tick padded to three digits
    and a dash, so equal names have equal ticks.
   */
  lemma FileNameInjective(t1: nat, id1: string, t2: nat, id2: string)
    requires t1 != t2
    ensures FileName(t1, id1) != FileName(t2, id2)
  {
    var p1, p2 := ZeroPad(t1, 3), ZeroPad(t2, 3);
    var f1, f2 := FileName(t1, id1), FileName(t2, id2);
    if |p1| == |p2| {
      assert f1[..|p1|] == p1 && f2[..|p2|] == p2;
      ZeroPadInjective(t1, t2, 3);
    } else if |p1| < |p2| {
      assert f1[|p1|] == '-' && f2[|p1|] == p2[|p1|];
    } else {
      assert f2[|p2|] == '-' && f1[|p2|] == p1[|p2|];
    }
  }

  /** The files of two different ticks have different names. */
  lemma TickNamesDistinct(sample: Json, i: nat, j: nat, n: int, periodSeconds: int, g: Generator)
    requires 1 <= i < j <= n
    requires PlannedFile(sample, i, n, periodSeconds, g).Ok? && PlannedFile(sample, j, n, periodSeconds, g).Ok?
    ensures PlannedFile(sample, i, n, periodSeconds, g).value.name != PlannedFile(sample, j, n, periodSeconds, g).value.name
  {
    FileNameInjective(i, OutageId(g, periodSeconds, i).value, j, OutageId(g, periodSeconds, j).value);
  }

  /** The files of one run have pairwise distinct names, so no tick overwrites another's file. */
  lemma PregeneratedNamesDistinct(sample: Option<Json>, n: int, periodSeconds: int, g: Generator)
    requires Pregenerated(sample, n, periodSeconds, g).Ok?
    ensures var files := Pregenerated(sample, n, periodSeconds, g).value;
      forall i, j :: 0 <= i < j < |files| ==> files[i].name != files[j].name
  {
    var files := Pregenerated(sample, n, periodSeconds, g).value;
    PregeneratedTicks(sample, n, periodSeconds, g);
    forall t | 1 <= t <= |files|
      ensures OutageId(g, periodSeconds, t).Some? &&
              files[t - 1].name == FileName(t, OutageId(g, periodSeconds, t).value)
    {
      PlannedName(sample.value, t, n, periodSeconds, g, files[t - 1]);
    }
    NamedFilesDistinct(files, periodSeconds, g);
  }

  /** The file of tick `t` is named after `t` and the outage id of tick `t`. */
  lemma PlannedName(sample: Json, t: nat, n: int, periodSeconds: int, g: Generator, f: PregenFile)
    requires 1 <= t <= n && PlannedFile(sample, t, n, periodSeconds, g) == Ok(f)
    ensures OutageId(g, periodSeconds, t).Some?
    ensures f.name == FileName(t, OutageId(g, periodSeconds, t).value)
  {
  }

  /** Files each named after their own tick have pairwise distinct names. */
  lemma NamedFilesDistinct(files: seq<PregenFile>, periodSeconds: int, g: Generator)
    requires forall t :: 1 <= t <= |files| ==>
      OutageId(g, periodSeconds, t).Some? &&
      files[t - 1].name == FileName(t, OutageId(g, periodSeconds, t).value)
    ensures forall i, j :: 0 <= i < j < |files| ==> files[i].name != files[j].name
  {
    forall i, j | 0 <= i < j < |files|
      ensures files[i].name != files[j].name
    {
      assert OutageId(g, periodSeconds, i + 1).Some? && OutageId(g, periodSeconds, j + 1).Some?;
      FileNameInjective(i + 1, OutageId(g, periodSeconds, i + 1).value, j + 1, OutageId(g, periodSeconds, j + 1).value);
    }
  }
}
