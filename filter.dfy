/** The filter builder of inpe_stac/data.py: `get_collection_items` turning a
    search request into an ordered list of WHERE clauses plus the parameters
    bound to them, and data.py's `insert_deleted_flag_to_where`. */
module FilterBuilder {
  import opened Wrappers
  import opened Text
  import opened Records

  /** The operators of the STAC query extension. */
  datatype Op = Eq | Neq | Lt | Lte | Gt | Gte | StartsWith | EndsWith | Contains

  /** One WHERE clause. Clauses that use bound parameters name them as the SQL
      placeholders do; the operator clauses carry their value, which the source
      writes into the SQL text. */
  datatype Clause =
    | DeletedIs(deleted: bool)                       // deleted = 0 | deleted = 1
    | IdEq                                           // id = :item_id
    | IdsIn                                          // FIND_IN_SET(id, :ids)
    | CollectionsIn                                  // FIND_IN_SET(collection, :collections)
    | BboxHit                                        // corner comparisons with :min_x … :max_y
    | DateLe                                         // date <= :time_end
    | DateGe                                         // date >= :time_start
    | FieldOp(field: string, op: Op, value: string)  // <field> <op> <value>

  /** The four parts of a bounding box, as the strings the request gave. */
  datatype Corners = Corners(minX: string, minY: string, maxX: string, maxY: string)

  /** The parameter dict handed to the queries; an optional key is None until it is bound. */
  datatype Params = Params(
    page: int,
    limit: int,
    itemId: Option<string>,
    ids: Option<string>,
    corners: Option<Corners>,
    timeStart: Option<string>,
    timeEnd: Option<string>,
    collections: Option<string>)

  /** The `time` argument: a string, a list, or any other JSON value. */
  datatype TimeArg = TimeText(text: string) | TimeList(parts: seq<string>) | TimeOther

  /** One entry of the `query` dict: a field and its operator-to-value dict. */
  type FieldQuery = (string, map<string, string>)

  /** The arguments of `get_collection_items`; `query` is None when it is absent or not a dict. */
  datatype Request = Request(
    collectionId: Option<string>,
    itemId: Option<string>,
    bbox: Option<string>,
    time: Option<TimeArg>,
    page: int,
    limit: int,
    ids: Option<string>,
    collections: Option<seq<string>>,
    query: Option<seq<FieldQuery>>)

  /** `InvalidBoundingBoxError` and werkzeug's `BadRequest`. */
  datatype SearchError = InvalidBoundingBox | BadRequest(description: string)

  const TIME_NOT_STRING_OR_LIST := "`time` field is not a string or list"

  datatype Filter = Filter(clauses: seq<Clause>, params: Params)

  // ---- the query extension ----

  function OpKey(op: Op): (r: string)
  {
    match op
    case Eq => "eq"
    case Neq => "neq"
    case Lt => "lt"
    case Lte => "lte"
    case Gt => "gt"
    case Gte => "gte"
    case StartsWith => "startsWith"
    case EndsWith => "endsWith"
    case Contains => "contains"
  }

  /** The operator keys in the order the source tests them. */
  const OPERATORS: seq<Op> := [Eq, Neq, Lt, Lte, Gt, Gte, StartsWith, EndsWith, Contains]

  /** The clause one operator contributes to a field, if its key is present. */
  function OpClause(field: string, ops: map<string, string>, op: Op): (r: seq<Clause>)
  {
    if OpKey(op) in ops then [FieldOp(field, op, ops[OpKey(op)])] else []
  }

  /** The clauses of one field: the source tests the nine operator keys one
      after the other and appends a clause for each one present. */
  function FieldClauses(field: string, ops: map<string, string>): (r: seq<Clause>)
  {
    OpClause(field, ops, Eq) + OpClause(field, ops, Neq) + OpClause(field, ops, Lt) +
    OpClause(field, ops, Lte) + OpClause(field, ops, Gt) + OpClause(field, ops, Gte) +
    OpClause(field, ops, StartsWith) + OpClause(field, ops, EndsWith) + OpClause(field, ops, Contains)
  }

  /** Reference reading of the operator rule: walk an operator table in order,
      one clause per operator whose key is present. */
  function ClausesByTable(field: string, ops: map<string, string>, table: seq<Op>): (r: seq<Clause>)
    ensures forall c :: c in r ==>
      c.FieldOp? && c.field == field && c.op in table && OpKey(c.op) in ops && c.value == ops[OpKey(c.op)]
    ensures forall op :: op in table && OpKey(op) in ops ==> FieldOp(field, op, ops[OpKey(op)]) in r
  {
    if |table| == 0 then []
    else
      assert forall op :: op in table ==> op == table[0] || op in table[1..];
      OpClause(field, ops, table[0]) + ClausesByTable(field, ops, table[1..])
  }

  lemma {:induction false} ClausesByTableConcat(field: string, ops: map<string, string>, t1: seq<Op>, t2: seq<Op>)
    ensures ClausesByTable(field, ops, t1 + t2) == ClausesByTable(field, ops, t1) + ClausesByTable(field, ops, t2)
    decreases |t1|
  {
    if |t1| > 0 {
      assert (t1 + t2)[1..] == t1[1..] + t2;
      ClausesByTableConcat(field, ops, t1[1..], t2);
    } else {
      assert t1 + t2 == t2;
    }
  }

  /** A field's clauses are those of the operator table in the fixed order eq,
      neq, lt, lte, gt, gte, startsWith, endsWith, contains. */
  lemma FieldClausesFollowOperatorOrder(field: string, ops: map<string, string>)
    ensures FieldClauses(field, ops) == ClausesByTable(field, ops, OPERATORS)
  {
    var t := [Eq] + [Neq] + [Lt] + [Lte] + [Gt] + [Gte] + [StartsWith] + [EndsWith] + [Contains];
    assert t == OPERATORS;
    forall op: Op ensures ClausesByTable(field, ops, [op]) == OpClause(field, ops, op) {
      assert [op][1..] == [];
    }
    ClausesByTableConcat(field, ops, [Eq], [Neq]);
    ClausesByTableConcat(field, ops, [Eq] + [Neq], [Lt]);
    ClausesByTableConcat(field, ops, [Eq] + [Neq] + [Lt], [Lte]);
    ClausesByTableConcat(field, ops, [Eq] + [Neq] + [Lt] + [Lte], [Gt]);
    ClausesByTableConcat(field, ops, [Eq] + [Neq] + [Lt] + [Lte] + [Gt], [Gte]);
    ClausesByTableConcat(field, ops, [Eq] + [Neq] + [Lt] + [Lte] + [Gt] + [Gte], [StartsWith]);
    ClausesByTableConcat(field, ops, [Eq] + [Neq] + [Lt] + [Lte] + [Gt] + [Gte] + [StartsWith], [EndsWith]);
    ClausesByTableConcat(field, ops, [Eq] + [Neq] + [Lt] + [Lte] + [Gt] + [Gte] + [StartsWith] + [EndsWith], [Contains]);
  }

  /** Every clause of a field is an operator clause on that field whose key is
      present, with that key's value; and each of the nine keys present gives one. */
  lemma FieldClausesShape(field: string, ops: map<string, string>)
    ensures forall c :: c in FieldClauses(field, ops) ==>
      c.FieldOp? && c.field == field && OpKey(c.op) in ops && c.value == ops[OpKey(c.op)]
    ensures forall op: Op :: OpKey(op) in ops ==> FieldOp(field, op, ops[OpKey(op)]) in FieldClauses(field, ops)
  {
    FieldClausesFollowOperatorOrder(field, ops);
    assert forall op: Op :: op in OPERATORS by {
      forall op: Op ensures op in OPERATORS {
        match op
        case Eq => assert OPERATORS[0] == op;
        case Neq => assert OPERATORS[1] == op;
        case Lt => assert OPERATORS[2] == op;
        case Lte => assert OPERATORS[3] == op;
        case Gt => assert OPERATORS[4] == op;
        case Gte => assert OPERATORS[5] == op;
        case StartsWith => assert OPERATORS[6] == op;
        case EndsWith => assert OPERATORS[7] == op;
        case Contains => assert OPERATORS[8] == op;
      }
    }
  }

  /** An operator key outside the extension's nine is ignored, not rejected. */
  lemma UnknownOperatorIgnored(field: string, ops: map<string, string>, key: string, value: string)
    requires forall op: Op :: OpKey(op) != key
    ensures FieldClauses(field, ops[key := value]) == FieldClauses(field, ops)
  {
    assert OpKey(Eq) != key && OpKey(Neq) != key && OpKey(Lt) != key && OpKey(Lte) != key;
    assert OpKey(Gt) != key && OpKey(Gte) != key && OpKey(StartsWith) != key;
    assert OpKey(EndsWith) != key && OpKey(Contains) != key;
  }

  /** The clauses of a whole query dict, field by field in its order. */
  function QueryClauses(fields: seq<FieldQuery>): (r: seq<Clause>)
    ensures forall c :: c in r ==> c.FieldOp?
    decreases |fields|
  {
    if |fields| == 0 then []
    else
      var last := fields[|fields| - 1];
      FieldClausesShape(last.0, last.1);
      QueryClauses(fields[..|fields| - 1]) + FieldClauses(last.0, last.1)
  }

  /** Whether an operator dict names at least one of the nine operators. */
  predicate NamesOperator(ops: map<string, string>)
  {
    exists op: Op :: OpKey(op) in ops
  }

  /** A field yields clauses exactly when its dict names an operator. */
  lemma FieldClausesNonEmpty(field: string, ops: map<string, string>)
    ensures |FieldClauses(field, ops)| > 0 <==> NamesOperator(ops)
  {
    FieldClausesShape(field, ops);
    if |FieldClauses(field, ops)| > 0 {
      var c := FieldClauses(field, ops)[0];
      assert c in FieldClauses(field, ops);
      assert OpKey(c.op) in ops;
    }
  }

  /** A query yields clauses exactly when some field's dict names one of the
      nine operators: fields with only unknown keys add nothing. */
  lemma {:induction false} QueryClausesNonEmpty(fields: seq<FieldQuery>)
    ensures |QueryClauses(fields)| > 0 <==> exists i :: 0 <= i < |fields| && NamesOperator(fields[i].1)
    decreases |fields|
  {
    if |fields| > 0 {
      var front := fields[..|fields| - 1];
      var last := fields[|fields| - 1];
      QueryClausesNonEmpty(front);
      FieldClausesNonEmpty(last.0, last.1);
      assert forall i :: 0 <= i < |front| ==> front[i] == fields[i];
      if exists i :: 0 <= i < |fields| && NamesOperator(fields[i].1) {
        var i :| 0 <= i < |fields| && NamesOperator(fields[i].1);
        if i < |front| {
          assert NamesOperator(front[i].1);
        }
      }
    }
  }

  lemma QueryClausesSnoc(before: seq<Clause>, fields: seq<FieldQuery>, i: nat)
    requires i < |fields|
    ensures before + QueryClauses(fields[..i]) + FieldClauses(fields[i].0, fields[i].1)
         == before + QueryClauses(fields[..i + 1])
  {
    assert fields[..i + 1][..i] == fields[..i];
  }

  // ---- the request, section by section ----

  function InitialParams(req: Request): (r: Params)
  {
    Params(req.page - 1, req.limit, None, None, None, None, None, None)
  }

  /** A bbox is accepted when every comma-separated part parses as a float
      and there are exactly four parts. */
  predicate ValidBbox(bbox: string)
  {
    var parts := Split(bbox, ',');
    (forall k :: 0 <= k < |parts| ==> IsNumeric(parts[k])) && |parts| == 4
  }

  function BboxStep(bbox: Option<string>, f: Filter): (r: Result<Filter, SearchError>)
  {
    if bbox.None? then Success(f)
    else if !ValidBbox(bbox.value) then Failure(InvalidBoundingBox)
    else
      var parts := Split(bbox.value, ',');
      Success(Filter(f.clauses + [BboxHit],
                     f.params.(corners := Some(Corners(parts[0], parts[1], parts[2], parts[3])))))
  }

  /** A string time is split on '/'; a list is taken as it is. */
  function TimeParts(t: TimeArg): (r: seq<string>)
    requires !t.TimeOther?
  {
    if t.TimeText? then Split(t.text, '/') else t.parts
  }

  function TimeStep(time: Option<TimeArg>, f: Filter): (r: Result<Filter, SearchError>)
  {
    if time.None? then Success(f)
    else if time.value.TimeOther? then Failure(BadRequest(TIME_NOT_STRING_OR_LIST))
    else
      var parts := TimeParts(time.value);
      if |parts| == 2 then
        Success(Filter(f.clauses + [DateLe, DateGe],
                       f.params.(timeStart := Some(parts[0]), timeEnd := Some(parts[1]))))
      else if |parts| == 1 then
        Success(Filter(f.clauses + [DateGe], f.params.(timeStart := Some(parts[0]))))
      else
        Success(Filter(f.clauses + [DateGe], f.params))
  }

  function QueryStep(query: Option<seq<FieldQuery>>, f: Filter): (r: Filter)
  {
    if query.None? then f else Filter(f.clauses + QueryClauses(query.value), f.params)
  }

  /** A single `collection_id` stands for the one-element collection list. */
  function RequestedCollections(req: Request): (r: Option<seq<string>>)
  {
    if req.collectionId.Some? then Some([req.collectionId.value]) else req.collections
  }

  function CollectionsStep(collections: Option<seq<string>>, f: Filter): (r: Filter)
  {
    if collections.None? then f
    else Filter([CollectionsIn] + f.clauses,
                f.params.(collections := Some(Join(collections.value, ','))))
  }

  predicate IdSearch(req: Request)
  {
    req.itemId.Some? || req.ids.Some?
  }

  /** The clauses and parameters `get_collection_items` builds, or the error it raises. */
  function FilterOf(req: Request): (r: Result<Filter, SearchError>)
  {
    var init := Filter([], InitialParams(req));
    if req.itemId.Some? then Success(Filter([IdEq], init.params.(itemId := req.itemId)))
    else if req.ids.Some? then Success(Filter([IdsIn], init.params.(ids := req.ids)))
    else
      match BboxStep(req.bbox, init)
      case Failure(e) => Failure(e)
      case Success(b) =>
        match TimeStep(req.time, b)
        case Failure(e) => Failure(e)
        case Success(t) => Success(CollectionsStep(RequestedCollections(req), QueryStep(req.query, t)))
  }

  /** The bbox part of `get_collection_items`: every part must parse as a
      float, then there must be four of them. */
  method ApplyBbox(bbox: Option<string>, f: Filter) returns (r: Result<Filter, SearchError>)
    ensures r == BboxStep(bbox, f)
  {
    if bbox.None? {
      return Success(f);
    }
    var parts := Split(bbox.value, ',');
    var k := 0;
    while k < |parts|
      invariant 0 <= k <= |parts|
      invariant forall j :: 0 <= j < k ==> IsNumeric(parts[j])
    {
      if !IsNumeric(parts[k]) {
        return Failure(InvalidBoundingBox);
      }
      k := k + 1;
    }
    if |parts| != 4 {
      return Failure(InvalidBoundingBox);
    }
    var params := f.params.(corners := Some(Corners(parts[0], parts[1], parts[2], parts[3])));
    r := Success(Filter(f.clauses + [BboxHit], params));
  }

  /** The query part: the clauses of each field in turn. */
  method ApplyQuery(query: Option<seq<FieldQuery>>, f: Filter) returns (r: Filter)
    ensures r == QueryStep(query, f)
  {
    if query.None? {
      return f;
    }
    var fields := query.value;
    var clauses := f.clauses;
    var i := 0;
    while i < |fields|
      invariant 0 <= i <= |fields|
      invariant clauses == f.clauses + QueryClauses(fields[..i])
    {
      QueryClausesSnoc(f.clauses, fields, i);
      clauses := clauses + FieldClauses(fields[i].0, fields[i].1);
      i := i + 1;
    }
    assert fields[..|fields|] == fields;
    r := Filter(clauses, f.params);
  }

  /** `get_collection_items` up to the query: identifier searches stop at
      once; otherwise bbox, time and query append their clauses and the
      collections clause is put in front. */
  method BuildFilter(req: Request) returns (r: Result<Filter, SearchError>)
    ensures r == FilterOf(req)
  {
    var params := InitialParams(req);
    if req.itemId.Some? {
      return Success(Filter([IdEq], params.(itemId := req.itemId)));
    }
    if req.ids.Some? {
      return Success(Filter([IdsIn], params.(ids := req.ids)));
    }
    var b := ApplyBbox(req.bbox, Filter([], params));
    if b.Failure? {
      return Failure(b.error);
    }
    var t := TimeStep(req.time, b.value);
    if t.Failure? {
      return Failure(t.error);
    }
    var f := ApplyQuery(req.query, t.value);
    var collections := req.collections;
    if req.collectionId.Some? {
      collections := Some([req.collectionId.value]);
    }
    if collections.Some? {
      f := Filter([CollectionsIn] + f.clauses, f.params.(collections := Some(Join(collections.value, ','))));
    }
    r := Success(f);
  }

  // ---- the soft-delete clause ----

  /** `insert_deleted_flag_to_where` of data.py: flag "0" or "1" puts the
      matching `deleted` clause in front; any other flag changes nothing. */
  function WithDeletedFlag(flag: string, clauses: seq<Clause>): (r: seq<Clause>)
    ensures flag == "0" || flag == "1" ==>
      |r| == |clauses| + 1 && r[0] == DeletedIs(flag == "1") && r[1..] == clauses
    ensures flag != "0" && flag != "1" ==> r == clauses
  {
    if flag == "0" then [DeletedIs(false)] + clauses
    else if flag == "1" then [DeletedIs(true)] + clauses
    else clauses
  }

  /** The caller's clause list, which the insertion updates in place. */
  class Where {
    var clauses: seq<Clause>

    constructor (clauses: seq<Clause>)
      ensures this.clauses == clauses
    {
      this.clauses := clauses;
    }

    method InsertDeletedFlag(flag: string)
      modifies this
      ensures clauses == WithDeletedFlag(flag, old(clauses))
    {
      if flag == "0" {
        clauses := [DeletedIs(false)] + clauses;
      } else if flag == "1" {
        clauses := [DeletedIs(true)] + clauses;
      }
    }
  }

  // ---- properties of the builder ----

  /** An `item_id` or `ids` search yields exactly one clause and binds nothing
      but its identifier: bbox, time, query and collections are never looked at. */
  lemma IdSearchTakesPrecedence(req: Request)
    requires IdSearch(req)
    ensures FilterOf(req).Success?
    ensures var f := FilterOf(req).value;
      && f.clauses == (if req.itemId.Some? then [IdEq] else [IdsIn])
      && f.params == InitialParams(req).(itemId := req.itemId,
                                          ids := if req.itemId.Some? then None else req.ids)
      && f.params.collections.None?
  {
  }

  /** Adding bbox, time, query or collection filters to an identifier search changes nothing. */
  lemma IdSearchIgnoresOtherFilters(req: Request, other: Request)
    requires IdSearch(req)
    requires other.itemId == req.itemId && other.ids == req.ids
    requires other.page == req.page && other.limit == req.limit
    ensures FilterOf(other) == FilterOf(req)
  {
  }

  /** The bbox error is raised exactly when a bbox is given, no identifier is
      searched for, and the bbox is not four numbers. */
  lemma BboxRejectedIff(req: Request)
    ensures FilterOf(req) == Failure(InvalidBoundingBox)
            <==> !IdSearch(req) && req.bbox.Some? && !ValidBbox(req.bbox.value)
  {
  }

  lemma BboxStepCorners(bbox: string, f: Filter)
    requires BboxStep(Some(bbox), f).Success?
    ensures var p := BboxStep(Some(bbox), f).value.params;
      && p.corners.Some?
      && var c := p.corners.value;
      && Join([c.minX, c.minY, c.maxX, c.maxY], ',') == bbox
      && IsNumeric(c.minX) && IsNumeric(c.minY) && IsNumeric(c.maxX) && IsNumeric(c.maxY)
  {
    var parts := Split(bbox, ',');
    JoinSplit(bbox, ',');
    assert parts == [parts[0], parts[1], parts[2], parts[3]];
  }

  /** On success the four bound corners are the bbox's parts in order: joined
      with commas again they give back the bbox string, and each is a number. */
  lemma BboxCornersAreTheParts(req: Request)
    requires !IdSearch(req) && req.bbox.Some? && FilterOf(req).Success?
    ensures var p := FilterOf(req).value.params;
      && p.corners.Some?
      && var c := p.corners.value;
      && Join([c.minX, c.minY, c.maxX, c.maxY], ',') == req.bbox.value
      && IsNumeric(c.minX) && IsNumeric(c.minY) && IsNumeric(c.maxX) && IsNumeric(c.maxY)
  {
    UnscopedSuccess(req);
    UnscopedParams(req);
    BboxStepCorners(req.bbox.value, Filter([], InitialParams(req)));
  }

  /** A time value that is neither a string nor a list is a BadRequest (unless
      the bbox already failed or an identifier is searched for). */
  lemma TimeOtherRejected(req: Request)
    requires !IdSearch(req) && req.time == Some(TimeOther)
    requires req.bbox.None? || ValidBbox(req.bbox.value)
    ensures FilterOf(req) == Failure(BadRequest(TIME_NOT_STRING_OR_LIST))
  {
  }

  /** `start/end` binds both ends; a single value binds only the start. */
  lemma TimeBindings(req: Request)
    requires !IdSearch(req) && req.time.Some? && FilterOf(req).Success?
    ensures !req.time.value.TimeOther?
    ensures var parts := TimeParts(req.time.value);
      var p := FilterOf(req).value.params;
      && (|parts| == 2 ==> p.timeStart == Some(parts[0]) && p.timeEnd == Some(parts[1]))
      && (|parts| == 1 ==> p.timeStart == Some(parts[0]) && p.timeEnd.None?)
      && (|parts| != 1 && |parts| != 2 ==> p.timeStart.None? && p.timeEnd.None?)
  {
  }

  // The sections of an unscoped search, in the order they end up in.

  function CollectionsSection(req: Request): (r: seq<Clause>)
  {
    if RequestedCollections(req).Some? then [CollectionsIn] else []
  }

  function BboxSection(req: Request): (r: seq<Clause>)
  {
    if req.bbox.Some? then [BboxHit] else []
  }

  function TimeSection(req: Request): (r: seq<Clause>)
    requires req.time.None? || !req.time.value.TimeOther?
  {
    if req.time.None? then []
    else if |TimeParts(req.time.value)| == 2 then [DateLe, DateGe]
    else [DateGe]
  }

  function QuerySection(req: Request): (r: seq<Clause>)
  {
    if req.query.None? then [] else QueryClauses(req.query.value)
  }

  function Sections(req: Request): (r: seq<Clause>)
    requires req.time.None? || !req.time.value.TimeOther?
  {
    CollectionsSection(req) + BboxSection(req) + TimeSection(req) + QuerySection(req)
  }

  lemma BboxStepClauses(bbox: Option<string>, f: Filter)
    requires BboxStep(bbox, f).Success?
    ensures bbox.None? || ValidBbox(bbox.value)
    ensures BboxStep(bbox, f).value.clauses == f.clauses + (if bbox.Some? then [BboxHit] else [])
  {
  }

  lemma TimeStepClauses(time: Option<TimeArg>, f: Filter)
    requires TimeStep(time, f).Success?
    ensures time.None? || !time.value.TimeOther?
    ensures TimeStep(time, f).value.clauses
         == f.clauses + (if time.None? then [] else if |TimeParts(time.value)| == 2 then [DateLe, DateGe] else [DateGe])
  {
  }

  function UnscopedFilter(req: Request): (r: Filter)
    requires BboxStep(req.bbox, Filter([], InitialParams(req))).Success?
    requires TimeStep(req.time, BboxStep(req.bbox, Filter([], InitialParams(req))).value).Success?
  {
    var b := BboxStep(req.bbox, Filter([], InitialParams(req))).value;
    CollectionsStep(RequestedCollections(req), QueryStep(req.query, TimeStep(req.time, b).value))
  }

  lemma UnscopedSuccess(req: Request)
    requires !IdSearch(req) && FilterOf(req).Success?
    ensures BboxStep(req.bbox, Filter([], InitialParams(req))).Success?
    ensures TimeStep(req.time, BboxStep(req.bbox, Filter([], InitialParams(req))).value).Success?
    ensures FilterOf(req) == Success(UnscopedFilter(req))
  {
  }

  lemma Concat4(c: seq<Clause>, b: seq<Clause>, t: seq<Clause>, q: seq<Clause>)
    ensures c + ((b + t) + q) == c + b + t + q
  {
  }

  lemma UnscopedClauses(req: Request)
    requires BboxStep(req.bbox, Filter([], InitialParams(req))).Success?
    requires TimeStep(req.time, BboxStep(req.bbox, Filter([], InitialParams(req))).value).Success?
    ensures req.bbox.None? || ValidBbox(req.bbox.value)
    ensures req.time.None? || !req.time.value.TimeOther?
    ensures UnscopedFilter(req).clauses == Sections(req)
  {
    var init := Filter([], InitialParams(req));
    var b := BboxStep(req.bbox, init).value;
    BboxStepClauses(req.bbox, init);
    assert b.clauses == BboxSection(req);
    var t := TimeStep(req.time, b).value;
    TimeStepClauses(req.time, b);
    assert t.clauses == b.clauses + TimeSection(req);
    var q := QueryStep(req.query, t);
    assert q.clauses == t.clauses + QuerySection(req);
    assert UnscopedFilter(req).clauses == CollectionsSection(req) + q.clauses;
    Concat4(CollectionsSection(req), BboxSection(req), TimeSection(req), QuerySection(req));
  }

  /** Which parameters an unscoped search binds: the bbox step's corners, the
      collections exactly when some are requested, and the time ends by the
      number of parts. */
  lemma UnscopedParams(req: Request)
    requires BboxStep(req.bbox, Filter([], InitialParams(req))).Success?
    requires TimeStep(req.time, BboxStep(req.bbox, Filter([], InitialParams(req))).value).Success?
    ensures req.time.None? || !req.time.value.TimeOther?
    ensures var p := UnscopedFilter(req).params;
      && p.corners == BboxStep(req.bbox, Filter([], InitialParams(req))).value.params.corners
      && (p.corners.Some? <==> req.bbox.Some?)
      && (p.collections.Some? <==> RequestedCollections(req).Some?)
      && (p.timeStart.Some? <==> req.time.Some? && 1 <= |TimeParts(req.time.value)| <= 2)
      && (p.timeEnd.Some? <==> req.time.Some? && |TimeParts(req.time.value)| == 2)
  {
    var init := Filter([], InitialParams(req));
    var b := BboxStep(req.bbox, init).value;
    assert b.params == init.params.(corners := b.params.corners);
    assert req.bbox.Some? <==> b.params.corners.Some?;
    var t := TimeStep(req.time, b).value;
    assert t.params.corners == b.params.corners && t.params.collections.None?;
  }

  /** The clauses of a successful search without identifiers are the
      collections clause, the bbox clause, the time clauses and the query
      clauses, each present only if its argument was given. */
  lemma ClauseLayout(req: Request)
    requires !IdSearch(req) && FilterOf(req).Success?
    ensures req.bbox.None? || ValidBbox(req.bbox.value)
    ensures req.time.None? || !req.time.value.TimeOther?
    ensures FilterOf(req).value.clauses == Sections(req)
  {
    UnscopedSuccess(req);
    UnscopedClauses(req);
  }

  /** Membership in four concatenated sections whose kinds are known. */
  lemma ConcatMembership(c: seq<Clause>, b: seq<Clause>, t: seq<Clause>, q: seq<Clause>)
    requires forall x :: x in c ==> x == CollectionsIn
    requires forall x :: x in b ==> x == BboxHit
    requires forall x :: x in t ==> x == DateLe || x == DateGe
    requires forall x :: x in q ==> x.FieldOp?
    ensures var cs := c + b + t + q;
      && IdEq !in cs && IdsIn !in cs
      && (CollectionsIn in cs <==> CollectionsIn in c)
      && (BboxHit in cs <==> BboxHit in b)
      && (DateGe in cs <==> DateGe in t)
      && (DateLe in cs <==> DateLe in t)
      && (forall x :: x in cs ==> !x.DeletedIs?)
      && (forall x :: x in cs && x.FieldOp? ==> x in q)
  {
  }

  lemma SectionKinds(req: Request)
    requires req.time.None? || !req.time.value.TimeOther?
    ensures forall x :: x in CollectionsSection(req) ==> x == CollectionsIn
    ensures forall x :: x in BboxSection(req) ==> x == BboxHit
    ensures forall x :: x in TimeSection(req) ==> x == DateLe || x == DateGe
    ensures forall x :: x in QuerySection(req) ==> x.FieldOp?
    ensures CollectionsIn in CollectionsSection(req) <==> RequestedCollections(req).Some?
    ensures BboxHit in BboxSection(req) <==> req.bbox.Some?
    ensures DateGe in TimeSection(req) <==> req.time.Some?
    ensures DateLe in TimeSection(req) <==> req.time.Some? && |TimeParts(req.time.value)| == 2
    ensures |QuerySection(req)| > 0 ==> req.query.Some?
  {
  }

  /** Which clause kinds the sections hold. */
  lemma SectionsMembership(req: Request)
    requires req.time.None? || !req.time.value.TimeOther?
    ensures var cs := Sections(req);
      && IdEq !in cs && IdsIn !in cs
      && (CollectionsIn in cs <==> RequestedCollections(req).Some?)
      && (BboxHit in cs <==> req.bbox.Some?)
      && (DateGe in cs <==> req.time.Some?)
      && (DateLe in cs <==> req.time.Some? && |TimeParts(req.time.value)| == 2)
      && (forall x :: x in cs && x.FieldOp? ==> req.query.Some?)
      && (forall x :: x in cs ==> !x.DeletedIs?)
  {
    var c, b, t, q := CollectionsSection(req), BboxSection(req), TimeSection(req), QuerySection(req);
    SectionKinds(req);
    ConcatMembership(c, b, t, q);
  }

  /** Which clauses appear, in terms of the request. */
  lemma ClauseMembership(req: Request)
    requires FilterOf(req).Success?
    ensures var cs := FilterOf(req).value.clauses;
      && (IdEq in cs <==> req.itemId.Some?)
      && (IdsIn in cs <==> req.itemId.None? && req.ids.Some?)
      && (CollectionsIn in cs <==> !IdSearch(req) && RequestedCollections(req).Some?)
      && (BboxHit in cs <==> !IdSearch(req) && req.bbox.Some?)
      && (DateGe in cs <==> !IdSearch(req) && req.time.Some?)
      && (DateLe in cs <==> !IdSearch(req) && req.time.Some? && |TimeParts(req.time.value)| == 2)
      && (forall c :: c in cs && c.FieldOp? ==> !IdSearch(req) && req.query.Some?)
      && (forall c :: c in cs ==> !c.DeletedIs?)
  {
    if !IdSearch(req) {
      ClauseLayout(req);
      SectionsMembership(req);
    }
  }

  /** The position a clause kind takes in the final list. */
  function Rank(c: Clause): (r: nat)
  {
    match c
    case DeletedIs(_) => 0
    case IdEq => 1
    case IdsIn => 1
    case CollectionsIn => 1
    case BboxHit => 2
    case DateLe => 3
    case DateGe => 4
    case FieldOp(_, _, _) => 5
  }

  predicate InClauseOrder(cs: seq<Clause>)
  {
    forall i, j :: 0 <= i < j < |cs| ==> Rank(cs[i]) <= Rank(cs[j])
  }

  lemma OrderedConcat(a: seq<Clause>, b: seq<Clause>)
    requires InClauseOrder(a) && InClauseOrder(b)
    requires forall x, y :: x in a && y in b ==> Rank(x) <= Rank(y)
    ensures InClauseOrder(a + b)
  {
    forall i, j | 0 <= i < j < |a + b| ensures Rank((a + b)[i]) <= Rank((a + b)[j]) {
      if j < |a| {
        assert (a + b)[i] == a[i] && (a + b)[j] == a[j];
      } else if i >= |a| {
        assert (a + b)[i] == b[i - |a|] && (a + b)[j] == b[j - |a|];
      } else {
        assert (a + b)[i] in a && (a + b)[j] in b;
      }
    }
  }

  lemma FourSectionsInOrder(c: seq<Clause>, b: seq<Clause>, t: seq<Clause>, q: seq<Clause>)
    requires forall x :: x in c ==> Rank(x) == 1
    requires forall x :: x in b ==> Rank(x) == 2
    requires forall x :: x in t ==> 3 <= Rank(x) <= 4
    requires InClauseOrder(t)
    requires forall x :: x in q ==> Rank(x) == 5
    ensures InClauseOrder(c + b + t + q)
  {
    assert forall i :: 0 <= i < |c| ==> c[i] in c;
    assert forall i :: 0 <= i < |b| ==> b[i] in b;
    assert forall i :: 0 <= i < |q| ==> q[i] in q;
    OrderedConcat(c, b);
    assert forall x :: x in c + b ==> Rank(x) <= 2;
    OrderedConcat(c + b, t);
    assert forall x :: x in c + b + t ==> Rank(x) <= 4;
    OrderedConcat(c + b + t, q);
  }

  /** The built clauses come in the order collections, bbox, time (`<=` end
      before `>=` start), query. */
  lemma SectionsInOrder(req: Request)
    requires req.time.None? || !req.time.value.TimeOther?
    ensures InClauseOrder(Sections(req))
  {
    var c, b, t, q := CollectionsSection(req), BboxSection(req), TimeSection(req), QuerySection(req);
    assert forall x :: x in q ==> x.FieldOp?;
    FourSectionsInOrder(c, b, t, q);
  }

  lemma BuiltClausesInOrder(req: Request)
    requires FilterOf(req).Success?
    ensures InClauseOrder(FilterOf(req).value.clauses)
  {
    if !IdSearch(req) {
      ClauseLayout(req);
      SectionsInOrder(req);
    }
  }

  function CountDeleted(cs: seq<Clause>): (r: nat)
  {
    if |cs| == 0 then 0 else (if cs[0].DeletedIs? then 1 else 0) + CountDeleted(cs[1..])
  }

  lemma {:induction false} CountDeletedNone(cs: seq<Clause>)
    requires forall c :: c in cs ==> !c.DeletedIs?
    ensures CountDeleted(cs) == 0
    decreases |cs|
  {
    if |cs| > 0 {
      assert cs[0] in cs;
      assert forall c :: c in cs[1..] ==> c in cs;
      CountDeletedNone(cs[1..]);
    }
  }

  /** The deleted-flag insertion on a list without `deleted` clauses that is
      in clause order: one clause at index 0 for "0" or "1", none otherwise,
      and the order kept. */
  lemma FlagKeepsOrder(flag: string, built: seq<Clause>)
    requires forall c :: c in built ==> !c.DeletedIs?
    requires InClauseOrder(built)
    ensures var cs := WithDeletedFlag(flag, built);
      && CountDeleted(cs) == (if flag == "0" || flag == "1" then 1 else 0)
      && (flag == "0" || flag == "1" ==> cs[0] == DeletedIs(flag == "1"))
      && InClauseOrder(cs)
  {
    var cs := WithDeletedFlag(flag, built);
    CountDeletedNone(built);
    if flag == "0" || flag == "1" {
      assert cs == [cs[0]] + built;
      assert cs[1..] == built;
      forall i, j | 0 <= i < j < |cs| ensures Rank(cs[i]) <= Rank(cs[j]) {
        if i > 0 { assert cs[i] == built[i - 1] && cs[j] == built[j - 1]; }
      }
    }
  }

  /** What reaches the store: with flag "0" or "1" exactly one `deleted`
      clause, at index 0, with any other flag none; and the whole list keeps the
      order deleted, collections, bbox, time, query. */
  lemma FinalClauses(flag: string, req: Request)
    requires FilterOf(req).Success?
    ensures var cs := WithDeletedFlag(flag, FilterOf(req).value.clauses);
      && CountDeleted(cs) == (if flag == "0" || flag == "1" then 1 else 0)
      && (flag == "0" || flag == "1" ==> cs[0] == DeletedIs(flag == "1"))
      && InClauseOrder(cs)
  {
    ClauseMembership(req);
    BuiltClausesInOrder(req);
    FlagKeepsOrder(flag, FilterOf(req).value.clauses);
  }

  /** Whether every parameter a clause names has been bound. */
  predicate Bound(c: Clause, p: Params)
  {
    match c
    case IdEq => p.itemId.Some?
    case IdsIn => p.ids.Some?
    case CollectionsIn => p.collections.Some?
    case BboxHit => p.corners.Some?
    case DateLe => p.timeEnd.Some?
    case DateGe => p.timeStart.Some?
    case _ => true
  }

  predicate WellBound(f: Filter)
  {
    forall c :: c in f.clauses ==> Bound(c, f.params)
  }

  /** A clause list of the kinds a search without identifiers builds names
      only bound parameters unless it holds `date >= :time_start` with
      `time_start` unbound. */
  lemma KindsWellBound(f: Filter)
    requires IdEq !in f.clauses && IdsIn !in f.clauses
    requires forall x :: x in f.clauses ==> !x.DeletedIs?
    requires CollectionsIn in f.clauses ==> f.params.collections.Some?
    requires BboxHit in f.clauses ==> f.params.corners.Some?
    requires DateLe in f.clauses ==> f.params.timeEnd.Some?
    ensures WellBound(f) <==> (DateGe in f.clauses ==> f.params.timeStart.Some?)
  {
    if DateGe in f.clauses && WellBound(f) {
      assert Bound(DateGe, f.params);
    }
  }

  /** A filter with the sections of a request, binding what its steps bind,
      names only bound parameters exactly when the time value, if any, has
      one or two parts. */
  lemma SectionsWellBound(req: Request, f: Filter)
    requires req.time.None? || !req.time.value.TimeOther?
    requires f.clauses == Sections(req)
    requires f.params.corners.Some? <==> req.bbox.Some?
    requires f.params.collections.Some? <==> RequestedCollections(req).Some?
    requires f.params.timeStart.Some? <==> req.time.Some? && 1 <= |TimeParts(req.time.value)| <= 2
    requires f.params.timeEnd.Some? <==> req.time.Some? && |TimeParts(req.time.value)| == 2
    ensures WellBound(f) <==> req.time.None? || 1 <= |TimeParts(req.time.value)| <= 2
  {
    SectionsMembership(req);
    KindsWellBound(f);
  }

  /** The built query names only bound parameters, except that a time list
      with no parts, or a time with more than two parts, still gets
      `date >= :time_start` while `time_start` stays unbound. */
  lemma WellBoundUnlessOddTime(req: Request)
    requires FilterOf(req).Success?
    ensures WellBound(FilterOf(req).value)
            <==> IdSearch(req) || req.time.None? || |TimeParts(req.time.value)| in {1, 2}
  {
    if !IdSearch(req) {
      UnscopedSuccess(req);
      UnscopedClauses(req);
      UnscopedParams(req);
      SectionsWellBound(req, UnscopedFilter(req));
    }
  }

  /** The requested collections are bound comma-joined; when no identifier
      contains a comma and the list is not empty, splitting the parameter on ','
      gives the list back. */
  lemma CollectionsParam(req: Request)
    requires !IdSearch(req) && FilterOf(req).Success? && RequestedCollections(req).Some?
    ensures var cols := RequestedCollections(req).value;
      var p := FilterOf(req).value.params;
      && p.collections == Some(Join(cols, ','))
      && (|cols| >= 1 && (forall k :: 0 <= k < |cols| ==> ',' !in cols[k]) ==>
            Split(p.collections.value, ',') == cols)
  {
    var cols := RequestedCollections(req).value;
    if |cols| >= 1 && (forall k :: 0 <= k < |cols| ==> ',' !in cols[k]) {
      SplitJoin(cols, ',');
    }
  }

  /** An empty collection list is bound as "", which splits to [""]. */
  lemma EmptyCollectionListBindsEmptyName(req: Request)
    requires !IdSearch(req) && FilterOf(req).Success? && RequestedCollections(req) == Some([])
    ensures FilterOf(req).value.params.collections == Some("")
    ensures Split("", ',') == [""]
  {
  }

  // ---- the bbox clause, read as a predicate on a scene ----

  /** The bbox clause's test of a scene's corners against the query box. */
  predicate BboxHits(minX: real, minY: real, maxX: real, maxY: real, s: Scene)
  {
    && ((minX <= s.tr.lon && minY <= s.tr.lat) || (minX <= s.br.lon && minY <= s.tl.lat))
    && ((maxX >= s.bl.lon && maxY >= s.bl.lat) || (maxX >= s.tl.lon && maxY >= s.br.lat))
  }

  predicate Inside(minX: real, minY: real, maxX: real, maxY: real, p: Point)
  {
    minX <= p.lon <= maxX && minY <= p.lat <= maxY
  }

  /** A scene whose four corners lie inside the box is selected. */
  lemma SceneInsideBoxHits(minX: real, minY: real, maxX: real, maxY: real, s: Scene)
    requires Inside(minX, minY, maxX, maxY, s.tl) && Inside(minX, minY, maxX, maxY, s.bl)
    requires Inside(minX, minY, maxX, maxY, s.br) && Inside(minX, minY, maxX, maxY, s.tr)
    ensures BboxHits(minX, minY, maxX, maxY, s)
  {
  }

  /** A scene lying wholly east, west, north or south of the box is not selected. */
  lemma SceneOutsideBoxMissed(minX: real, minY: real, maxX: real, maxY: real, s: Scene)
    requires
      || (s.tl.lon > maxX && s.bl.lon > maxX && s.br.lon > maxX && s.tr.lon > maxX)
      || (s.tl.lon < minX && s.bl.lon < minX && s.br.lon < minX && s.tr.lon < minX)
      || (s.tl.lat > maxY && s.bl.lat > maxY && s.br.lat > maxY && s.tr.lat > maxY)
      || (s.tl.lat < minY && s.bl.lat < minY && s.br.lat < minY && s.tr.lat < minY)
    ensures !BboxHits(minX, minY, maxX, maxY, s)
  {
  }
}
