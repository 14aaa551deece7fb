// The area sweep: a Nearby search shows at most one page, so a full page makes the sweep
// search the circle again as a grid of smaller circles. Coordinates are metres in a local
// plane.

module PlaceSweep {
  import opened Wrappers
  import Text

  type PlaceId = string

  datatype Circle = Circle(x: real, y: real, r: real)

  predicate Inside(c: Circle, x: real, y: real) {
    c.r >= 0.0 && (x - c.x) * (x - c.x) + (y - c.y) * (y - c.y) <= c.r * c.r
  }

  // The double nearest to the square root of two, which is what `math.sqrt(2)` returns.
  const SQRT2: real := 1.4142135623730951454746218587388284504413604736328125

  // --- The grid ---

  function FactorOf(factor: int): nat {
    if factor <= 2 then 2 else factor
  }

  // Offset of the centre of cell k from the middle of f cells of half-width h.
  function Centre(h: real, f: nat, k: int): real {
    (2 * k + 1 - f as int) as real * h
  }

  function Cell(c: Circle, f: nat, i: int, j: int): Circle
    requires f > 0
  {
    var halfWidth := c.r / f as real;
    Circle(c.x + Centre(halfWidth, f, j), c.y + Centre(halfWidth, f, i), halfWidth * SQRT2)
  }

  ghost predicate IsCell(d: Circle, c: Circle, f: nat)
    requires f > 0
  {
    exists i, j :: 0 <= i < f && 0 <= j < f && d == Cell(c, f, i, j)
  }

  // The factor-by-factor grid, no fewer and no other circles.
  method Subdivide(c: Circle, factor: int) returns (cells: seq<Circle>)
    ensures |cells| == FactorOf(factor) * FactorOf(factor)
    ensures forall i, j :: 0 <= i < FactorOf(factor) && 0 <= j < FactorOf(factor) ==>
              Cell(c, FactorOf(factor), i, j) in cells
    ensures forall k :: 0 <= k < |cells| ==> IsCell(cells[k], c, FactorOf(factor))
  {
    var f := FactorOf(factor);
    cells := [];
    for i := 0 to f
      invariant |cells| == i * f
      invariant forall a, b :: 0 <= a < i && 0 <= b < f ==> Cell(c, f, a, b) in cells
      invariant forall k :: 0 <= k < |cells| ==> IsCell(cells[k], c, f)
    {
      for j := 0 to f
        invariant |cells| == i * f + j
        invariant forall a, b :: 0 <= a < i && 0 <= b < f ==> Cell(c, f, a, b) in cells
        invariant forall b :: 0 <= b < j ==> Cell(c, f, i, b) in cells
        invariant forall k :: 0 <= k < |cells| ==> IsCell(cells[k], c, f)
      {
        cells := cells + [Cell(c, f, i, j)];
      }
    }
  }

  lemma MulLess(a: real, b: real, h: real)
    requires a < b && h > 0.0
    ensures a * h < b * h
  {}

  lemma MulLeq(a: real, b: real, h: real)
    requires a <= b && h >= 0.0
    ensures a * h <= b * h
  {}

  lemma SquareAtMost(a: real, h: real)
    requires -h <= a <= h
    ensures a * a <= h * h
  {
    var b := if a >= 0.0 then a else -a;
    assert b * b == a * a;
    MulLeq(b, h, b);
    MulLeq(b, h, h);
    assert h * b == b * h;
  }

  lemma SquareOrder(a: real, r: real)
    requires 0.0 <= r < a
    ensures r * r < a * a
  {
    assert (a - r) * (a + r) == a * a - r * r;
    MulLess(0.0, a - r, a + r);
  }

  lemma AbsFromSquare(a: real, r: real)
    requires r >= 0.0 && a * a <= r * r
    ensures -r <= a <= r
  {
    if a > r {
      SquareOrder(a, r);
    } else if -a > r {
      SquareOrder(-a, r);
    }
  }

  lemma NextCentre(h: real, f: nat, k: int)
    ensures Centre(h, f, k + 1) == Centre(h, f, k) + 2.0 * h
  {
    var n := (2 * k + 1 - f as int) as real;
    assert (2 * (k + 1) + 1 - f as int) as real == n + 2.0;
    assert (n + 2.0) * h == n * h + 2.0 * h;
  }

  lemma OuterCentres(h: real, f: nat)
    requires f >= 1
    ensures Centre(h, f, 0) - h == -(f as real * h)
    ensures Centre(h, f, f - 1) + h == f as real * h
  {
    var n := f as real;
    assert (1.0 - n) * h == h - n * h;
    assert (n - 1.0) * h == n * h - h;
  }

  // The intervals around the centres from k on cover what lies right of cell k's left edge.
  lemma {:induction false} IntervalsCover(t: real, h: real, f: nat, k: nat) returns (i: nat)
    requires k < f && Centre(h, f, k) - h <= t <= f as real * h
    ensures i < f && -h <= t - Centre(h, f, i) <= h
    decreases f - k
  {
    if t <= Centre(h, f, k) + h {
      i := k;
    } else {
      OuterCentres(h, f);
      NextCentre(h, f, k);
      i := IntervalsCover(t, h, f, k + 1);
    }
  }

  lemma WithinCell(ex: real, ey: real, h: real)
    requires -h <= ex <= h && -h <= ey <= h
    ensures ex * ex + ey * ey <= (h * SQRT2) * (h * SQRT2)
  {
    SquareAtMost(ex, h);
    SquareAtMost(ey, h);
    assert (h * SQRT2) * (h * SQRT2) == (SQRT2 * SQRT2) * (h * h);
    assert SQRT2 * SQRT2 >= 2.0;
    assert h * h >= 0.0;
    MulLeq(2.0, SQRT2 * SQRT2, h * h);
  }

  lemma InsideSquare(c: Circle, x: real, y: real)
    requires Inside(c, x, y)
    ensures -c.r <= x - c.x <= c.r && -c.r <= y - c.y <= c.r
  {
    var dx, dy := x - c.x, y - c.y;
    assert dx * dx >= 0.0 && dy * dy >= 0.0;
    AbsFromSquare(dx, c.r);
    AbsFromSquare(dy, c.r);
  }

  lemma InCell(c: Circle, f: nat, i: nat, j: nat, x: real, y: real, h: real)
    requires f > 0 && h == c.r / f as real && h >= 0.0
    requires -h <= (y - c.y) - Centre(h, f, i) <= h
    requires -h <= (x - c.x) - Centre(h, f, j) <= h
    ensures Inside(Cell(c, f, i, j), x, y)
  {
    var cell := Cell(c, f, i, j);
    var ex, ey := x - cell.x, y - cell.y;
    WithinCell(ex, ey, h);
    assert cell.r == h * SQRT2;
    MulLeq(0.0, h, SQRT2);
  }

  // Seen from the low corner of the square around the circle: cell (i, j) is the circle through the
  // corners of square (i, j) of the grid, whose sides are 2h.
  lemma CellOfSquare(c: Circle, f: nat, i: nat, j: nat, h: real)
    requires f > 0 && h * f as real == c.r
    ensures var cell := Cell(c, f, i, j);
            && cell.x - h == c.x - c.r + (2 * j) as real * h
            && cell.y - h == c.y - c.r + (2 * i) as real * h
            && cell.r == h * SQRT2
  {
    assert c.r / f as real == h;
    CentreFromEdge(h, f, i);
    CentreFromEdge(h, f, j);
  }

  lemma CentreFromEdge(h: real, f: nat, k: nat)
    ensures Centre(h, f, k) - h == (2 * k) as real * h - h * f as real
  {
    var n := f as real;
    assert ((2 * k) as real + 1.0 - n) * h == (2 * k) as real * h + h - h * n;
  }

  lemma FactorAtLeastTwo(factor: int)
    ensures FactorOf(factor) >= 2 && FactorOf(factor) >= factor
    ensures FactorOf(factor) == 2 || FactorOf(factor) == factor
  {
  }

  // Every point of the circle lies in one of the sub-circles.
  lemma GridCovers(c: Circle, factor: int, x: real, y: real) returns (i: nat, j: nat)
    requires Inside(c, x, y)
    ensures i < FactorOf(factor) && j < FactorOf(factor) && Inside(Cell(c, FactorOf(factor), i, j), x, y)
  {
    var f := FactorOf(factor);
    var h := HalfWidth(c, f);
    InsideSquare(c, x, y);
    OuterCentres(h, f);
    i := IntervalsCover(y - c.y, h, f, 0);
    j := IntervalsCover(x - c.x, h, f, 0);
    InCell(c, f, i, j, x, y, h);
  }

  lemma HalfWidth(c: Circle, f: nat) returns (h: real)
    requires f > 0 && c.r >= 0.0
    ensures h == c.r / f as real && h >= 0.0 && f as real * h == c.r
  {
    h := c.r / f as real;
    assert h * f as real == c.r;
    if h < 0.0 {
      MulLess(h, 0.0, f as real);
    }
  }

  // --- The client and the world it searches ---

  const MAX_PAGE_SIZE: nat := 20

  datatype Place = Place(id: PlaceId, name: string, website: Option<string>, phone: Option<string>)

  datatype Business = Business(place: Place, x: real, y: real, types: set<string>)

  datatype Response = Entries(places: seq<Place>) | Failed | QuotaExhausted

  function OrNone(s: Option<string>): Option<string> { if s == Some("") then None else s }

  // An entry as the service returns it, mapped; one with a blank id or name has no identity.
  function FromApi(raw: Place): Option<Place> {
    var id, name := Text.Strip(raw.id), Text.Strip(raw.name);
    if id == "" || name == "" then None else Some(Place(id, name, OrNone(raw.website), OrNone(raw.phone)))
  }

  function Mapped(raw: seq<Place>): seq<Place> {
    if raw == [] then []
    else (if FromApi(raw[0]).Some? then [FromApi(raw[0]).value] else []) + Mapped(raw[1..])
  }

  // An entry is kept exactly when its id and name are not blank, whatever else it lacks.
  lemma KeptExactly(raw: Place)
    ensures FromApi(raw).Some? <==> Text.Strip(raw.id) != "" && Text.Strip(raw.name) != ""
    ensures FromApi(raw).Some? ==>
              FromApi(raw).value == Place(Text.Strip(raw.id), Text.Strip(raw.name),
                                          if raw.website == Some("") then None else raw.website,
                                          if raw.phone == Some("") then None else raw.phone)
  {
  }

  // What is left of a page: its entries with an identity.
  lemma {:induction false} MappedMembers(raw: seq<Place>)
    ensures forall p :: p in Mapped(raw) <==> exists r :: r in raw && FromApi(r) == Some(p)
  {
    if raw != [] {
      MappedMembers(raw[1..]);
      assert raw == [raw[0]] + raw[1..];
    }
  }

  lemma MappedFrom(raw: seq<Place>, i: nat, done: seq<Place>)
    requires i < |raw|
    ensures done + Mapped(raw[i..])
         == (if FromApi(raw[i]).Some? then done + [FromApi(raw[i]).value] else done) + Mapped(raw[i + 1..])
  {
    assert raw[i..][1..] == raw[i + 1..];
    var rest := Mapped(raw[i + 1..]);
    if FromApi(raw[i]).None? {
      assert [] + rest == rest;
    } else {
      assert done + ([FromApi(raw[i]).value] + rest) == done + [FromApi(raw[i]).value] + rest;
    }
  }

  method ParsePlaces(raw: seq<Place>) returns (results: seq<Place>)
    ensures results == Mapped(raw)
  {
    results := [];
    for i := 0 to |raw|
      invariant results + Mapped(raw[i..]) == Mapped(raw)
    {
      MappedFrom(raw, i, results);
      var parsed := FromApi(raw[i]);
      if parsed.Some? {
        results := results + [parsed.value];
      }
    }
    assert raw[|raw|..] == [];
  }

  // What the service owes to its caller on call n: below a full page, everything there is.
  ghost predicate Honest(respond: (nat, Circle, string) -> Response, world: set<Business>) {
    forall n, c, ty :: respond(n, c, ty).Entries? && |respond(n, c, ty).places| < MAX_PAGE_SIZE ==>
      forall b :: b in world && ty in b.types && Inside(c, b.x, b.y) ==> b.place in respond(n, c, ty).places
  }

  datatype Outcome = Results(places: seq<Place>, truncated: bool) | SearchFailed | Quota

  class Client {
    const respond: (nat, Circle, string) -> Response
    var calls: nat
    ghost var shown: set<PlaceId>  // ids of everything a search has returned

    constructor (r: (nat, Circle, string) -> Response)
      ensures respond == r && calls == 0 && shown == {}
    {
      respond, calls, shown := r, 0, {};
    }

    // `truncated` counts what was returned, not what survived parsing.
    method SearchNearby(c: Circle, ty: string) returns (o: Outcome)
      modifies this
      ensures calls == old(calls) + 1 && old(shown) <= shown
      ensures match respond(old(calls), c, ty)
              case Failed => o == SearchFailed && shown == old(shown)
              case QuotaExhausted => o == Quota && shown == old(shown)
              case Entries(raw) =>
                && o.Results? && (o.truncated <==> |raw| >= 20)
                && (forall r :: r in raw && Text.Strip(r.id) != "" && Text.Strip(r.name) != "" ==>
                      Place(Text.Strip(r.id), Text.Strip(r.name), if r.website == Some("") then None else r.website,
                            if r.phone == Some("") then None else r.phone) in o.places)
                && (forall p :: p in o.places ==>
                      exists r :: r in raw && p.id == Text.Strip(r.id) != "" && p.name == Text.Strip(r.name) != ""
                                  && p.website == (if r.website == Some("") then None else r.website)
                                  && p.phone == (if r.phone == Some("") then None else r.phone))
                && shown == old(shown) + set p | p in o.places :: p.id
    {
      var answer := respond(calls, c, ty);
      calls := calls + 1;
      match answer
      case Failed => o := SearchFailed;
      case QuotaExhausted => o := Quota;
      case Entries(raw) =>
        var results := ParsePlaces(raw);
        MappedMembers(raw);
        forall r { KeptExactly(r); }
        o := Results(results, |raw| >= MAX_PAGE_SIZE);
        shown := shown + set p | p in results :: p.id;
    }
  }

  // --- The accumulator ---

  datatype Listing = Listing(place: Place, areas: seq<string>, sources: seq<string>)

  class Accumulator {
    var byId: map<PlaceId, Listing>

    constructor ()
      ensures byId == map[]
    {
      byId := map[];
    }

    // The first sighting is kept; later ones add where they were found and fill gaps only.
    method Add(place: Place, area: string, source: string)
      modifies this
      ensures byId.Keys == old(byId).Keys + {place.id}
      ensures forall id :: id in old(byId) && id != place.id ==> byId[id] == old(byId)[id]
      ensures place.id !in old(byId) ==> byId[place.id] == Listing(place, [area], [source])
      ensures place.id in old(byId) ==>
                var was, now := old(byId)[place.id], byId[place.id];
                var blank := {None, Some("")};
                && now.place.id == was.place.id && now.place.name == was.place.name
                && now.place.website == (if was.place.website in blank && place.website !in blank then place.website
                                         else was.place.website)
                && now.place.phone == (if was.place.phone in blank && place.phone !in blank then place.phone
                                       else was.place.phone)
                && now.areas == was.areas + (if area in was.areas then [] else [area])
                && now.sources == was.sources + (if source in was.sources then [] else [source])
    {
      if place.id !in byId {
        byId := byId[place.id := Listing(place, [area], [source])];
        return;
      }
      var existing := byId[place.id];
      if area !in existing.areas {
        existing := existing.(areas := existing.areas + [area]);
      }
      if source !in existing.sources {
        existing := existing.(sources := existing.sources + [source]);
      }
      if !(existing.place.website.Some? && existing.place.website.value != "")
         && place.website.Some? && place.website.value != "" {
        existing := existing.(place := existing.place.(website := place.website));
      }
      if !(existing.place.phone.Some? && existing.place.phone.value != "")
         && place.phone.Some? && place.phone.value != "" {
        existing := existing.(place := existing.place.(phone := place.phone));
      }
      byId := byId[place.id := existing];
    }
  }

  // Listings between `before` and `after` were found in this area by this search: new ones carry just
  // these labels, and the others have gained none but these.
  ghost predicate Labelled(before: map<PlaceId, Listing>, after: map<PlaceId, Listing>, area: string, source: string) {
    forall id :: id in after ==>
      if id !in before then after[id].areas == [area] && after[id].sources == [source]
      else
        && (after[id].areas == before[id].areas || after[id].areas == before[id].areas + [area])
        && (after[id].sources == before[id].sources || after[id].sources == before[id].sources + [source])
        && (area in before[id].areas ==> after[id].areas == before[id].areas)
        && (source in before[id].sources ==> after[id].sources == before[id].sources)
  }

  lemma LabelsAddUp(first: map<PlaceId, Listing>, second: map<PlaceId, Listing>, third: map<PlaceId, Listing>,
                    area: string, source: string)
    requires Labelled(first, second, area, source) && Labelled(second, third, area, source)
    requires first.Keys <= second.Keys
    ensures Labelled(first, third, area, source)
  {
  }

  datatype Warning =
    | SearchFailedAt(area: string, ty: string, r: real)
    | StillFull(area: string, ty: string, r: real, depth: int)
    | Unresolved(area: string)
    | QuotaStop(area: string)

  class Report {
    var warnings: seq<Warning>
    var quotaExhausted: bool

    constructor ()
      ensures warnings == [] && !quotaExhausted
    {
      warnings, quotaExhausted := [], false;
    }
  }

  datatype SweepConfig = SweepConfig(subdivide: bool, factor: int, maxDepth: int)

  // --- The pass ---

  // Calls made when every page comes back full: one, and one grid of passes per level left.
  function CallBound(factor: int, levels: nat): nat {
    if levels == 0 then 1
    else 1 + FactorOf(factor) * FactorOf(factor) * CallBound(factor, levels - 1)
  }

  function LevelsLeft(config: SweepConfig, depth: int): nat {
    if config.subdivide && depth < config.maxDepth then config.maxDepth - depth else 0
  }

  // Every identified business of the type inside the circle has been collected.
  ghost predicate Collected(world: set<Business>, c: Circle, ty: string, ids: set<PlaceId>) {
    forall b :: b in world && ty in b.types && Inside(c, b.x, b.y)
                && Text.Strip(b.place.id) != "" && Text.Strip(b.place.name) != "" ==>
      Text.Strip(b.place.id) in ids
  }

  ghost predicate AllCollected(world: set<Business>, c: Circle, types: seq<string>, ids: set<PlaceId>) {
    forall ty :: ty in types ==> Collected(world, c, ty, ids)
  }

  // The service never fails, never runs out of quota and every page it returns is full.
  ghost predicate AlwaysFull(respond: (nat, Circle, string) -> Response) {
    forall n, c, ty :: respond(n, c, ty).Entries? && |respond(n, c, ty).places| >= MAX_PAGE_SIZE
  }

  lemma FullPagesSplit(factor: int, levels: nat)
    requires levels > 0
    ensures CallBound(factor, levels) > FactorOf(factor) * FactorOf(factor)
  {
    AtLeastOneCall(factor, levels - 1);
    MoreCells(1, CallBound(factor, levels - 1), FactorOf(factor) * FactorOf(factor));
  }

  lemma {:induction false} AtLeastOneCall(factor: int, levels: nat)
    ensures CallBound(factor, levels) >= 1
  {
    if levels > 0 {
      AtLeastOneCall(factor, levels - 1);
      MoreCells(0, CallBound(factor, levels - 1), FactorOf(factor) * FactorOf(factor));
    }
  }

  // A search of this type, and radius, that was made before call number `calls` failed, came back
  // full, or met the end of the quota.
  ghost predicate FailedOnce(respond: (nat, Circle, string) -> Response, calls: nat, ty: string, r: real) {
    exists n: nat, c: Circle :: n < calls && c.r == r && respond(n, c, ty).Failed?
  }

  ghost predicate FullOnce(respond: (nat, Circle, string) -> Response, calls: nat, ty: string, r: real) {
    exists n: nat, c: Circle ::
      n < calls && c.r == r && respond(n, c, ty).Entries? && |respond(n, c, ty).places| >= MAX_PAGE_SIZE
  }

  ghost predicate QuotaOnce(respond: (nat, Circle, string) -> Response, calls: nat, ty: string) {
    exists n: nat, c: Circle :: n < calls && respond(n, c, ty).QuotaExhausted?
  }

  // A pass warns of a search that failed, or of a full page that it was not to subdivide.
  ghost predicate Justified(w: Warning, respond: (nat, Circle, string) -> Response, calls: nat, config: SweepConfig) {
    match w
    case SearchFailedAt(_, ty, r) => FailedOnce(respond, calls, ty, r)
    case StillFull(_, ty, r, depth) =>
      (!config.subdivide || depth >= config.maxDepth) && FullOnce(respond, calls, ty, r)
    case _ => false
  }

  ghost predicate NoFalseAlarm(before: seq<Warning>, after: seq<Warning>, respond: (nat, Circle, string) -> Response,
                               calls: nat, config: SweepConfig)
  {
    before <= after && forall k :: |before| <= k < |after| ==> Justified(after[k], respond, calls, config)
  }

  lemma LaterCallsJustify(w: Warning, respond: (nat, Circle, string) -> Response, calls: nat, more: nat,
                          config: SweepConfig)
    requires Justified(w, respond, calls, config) && calls <= more
    ensures Justified(w, respond, more, config)
  {
  }

  function IdsOf(places: seq<Place>): set<PlaceId> { set p | p in places :: p.id }

  // One search, and what its answer means for the world: a page below the limit holds every business
  // of the type in the circle.
  method Look(client: Client, c: Circle, ty: string, ghost world: set<Business>) returns (o: Outcome)
    requires Honest(client.respond, world)
    modifies client
    ensures client.calls == old(client.calls) + 1
    ensures client.shown == old(client.shown) + if o.Results? then IdsOf(o.places) else {}
    ensures match o
            case Results(places, truncated) =>
              if truncated then FullOnce(client.respond, client.calls, ty, c.r)
              else Collected(world, c, ty, IdsOf(places))
            case SearchFailed => FailedOnce(client.respond, client.calls, ty, c.r)
            case Quota => QuotaOnce(client.respond, client.calls, ty)
    ensures AlwaysFull(client.respond) ==> o.Results? && o.truncated
  {
    o := client.SearchNearby(c, ty);
    ghost var answer := client.respond(client.calls - 1, c, ty);
    if o.Results? && !o.truncated {
      forall b | b in world && ty in b.types && Inside(c, b.x, b.y)
                 && Text.Strip(b.place.id) != "" && Text.Strip(b.place.name) != ""
        ensures Text.Strip(b.place.id) in IdsOf(o.places)
      {
        assert b.place in answer.places;
      }
    }
  }

  // `_nearby_pass`; `quota` is the quota error leaving the call.
  method NearbyPass(client: Client, acc: Accumulator, report: Report, config: SweepConfig, area: string,
                    c: Circle, ty: string, depth: int, ghost world: set<Business>)
    returns (quota: bool)
    requires Honest(client.respond, world)
    modifies client, acc, report`warnings
    ensures old(acc.byId).Keys <= acc.byId.Keys && old(report.warnings) <= report.warnings
    // complete, or warned about, or out of quota
    ensures quota || old(report.warnings) != report.warnings || Collected(world, c, ty, acc.byId.Keys)
    // nothing but what the searches returned, and all of that
    ensures acc.byId.Keys <= old(acc.byId).Keys + client.shown
    ensures old(client.shown) <= client.shown <= old(client.shown) + acc.byId.Keys
    // no warning without its cause, and no quota error but the service's
    ensures NoFalseAlarm(old(report.warnings), report.warnings, client.respond, client.calls, config)
    ensures quota ==> QuotaOnce(client.respond, client.calls, ty)
    // one call where nothing is subdivided, more than a grid of them where full pages are
    ensures !config.subdivide || depth >= config.maxDepth ==> client.calls == old(client.calls) + 1
    ensures AlwaysFull(client.respond) && config.subdivide && depth < config.maxDepth ==>
              client.calls > old(client.calls) + FactorOf(config.factor) * FactorOf(config.factor)
    ensures Labelled(old(acc.byId), acc.byId, area, "nearby:" + ty)
    // bounded work, and exactly that much when every page is full
    ensures old(client.calls) < client.calls <= old(client.calls) + CallBound(config.factor, LevelsLeft(config, depth))
    ensures AlwaysFull(client.respond) ==>
              !quota && client.calls == old(client.calls) + CallBound(config.factor, LevelsLeft(config, depth))
    decreases LevelsLeft(config, depth), 1
  {
    var o := Look(client, c, ty, world);
    match o {
      case Quota => return true;
      case SearchFailed =>
        report.warnings := report.warnings + [SearchFailedAt(area, ty, c.r)];
        return false;
      case Results(results, truncated) =>
        AddAll(acc, results, area, "nearby:" + ty);
        if !truncated {
          return false;
        }
        if !config.subdivide || depth >= config.maxDepth {
          report.warnings := report.warnings + [StillFull(area, ty, c.r, depth)];
          return false;
        }
        ghost var found := acc.byId;
        quota := Deepen(client, acc, report, config, area, c, ty, depth, world);
        LabelsAddUp(old(acc.byId), found, acc.byId, area, "nearby:" + ty);
    }
  }

  // The page came back full and may be subdivided.
  method Deepen(client: Client, acc: Accumulator, report: Report, config: SweepConfig, area: string,
                c: Circle, ty: string, depth: int, ghost world: set<Business>)
    returns (quota: bool)
    requires Honest(client.respond, world) && config.subdivide && depth < config.maxDepth
    modifies client, acc, report`warnings
    ensures old(acc.byId).Keys <= acc.byId.Keys && old(report.warnings) <= report.warnings
    ensures quota || old(report.warnings) != report.warnings || Collected(world, c, ty, acc.byId.Keys)
    ensures acc.byId.Keys <= old(acc.byId).Keys + client.shown
    ensures old(client.shown) <= client.shown <= old(client.shown) + acc.byId.Keys
    ensures NoFalseAlarm(old(report.warnings), report.warnings, client.respond, client.calls, config)
    ensures quota ==> QuotaOnce(client.respond, client.calls, ty)
    ensures Labelled(old(acc.byId), acc.byId, area, "nearby:" + ty)
    ensures old(client.calls) <= client.calls
            < old(client.calls) + CallBound(config.factor, LevelsLeft(config, depth))
    ensures AlwaysFull(client.respond) ==>
              !quota && client.calls + 1 == old(client.calls) + CallBound(config.factor, LevelsLeft(config, depth))
              && client.calls >= old(client.calls) + FactorOf(config.factor) * FactorOf(config.factor)
    decreases LevelsLeft(config, depth), 0
  {
    var cells := Subdivide(c, config.factor);
    FullPagesSplit(config.factor, LevelsLeft(config, depth));
    quota := CellPasses(client, acc, report, config, area, cells, ty, depth + 1, world);
    if !quota && report.warnings == old(report.warnings) {
      GridCollects(world, c, config.factor, cells, ty, acc.byId.Keys);
    }
  }

  method AddAll(acc: Accumulator, places: seq<Place>, area: string, source: string)
    modifies acc
    ensures acc.byId.Keys == old(acc.byId).Keys + IdsOf(places)
    ensures Labelled(old(acc.byId), acc.byId, area, source)
  {
    for i := 0 to |places|
      invariant Labelled(old(acc.byId), acc.byId, area, source)
      invariant acc.byId.Keys == old(acc.byId).Keys + IdsOf(places[..i])
    {
      ghost var before := acc.byId;
      acc.Add(places[i], area, source);
      LabelsAddUp(old(acc.byId), before, acc.byId, area, source);
      assert places[..i + 1] == places[..i] + [places[i]];
    }
    assert places[..|places|] == places;
  }

  // The recursive calls, one a sub-circle.
  method CellPasses(client: Client, acc: Accumulator, report: Report, config: SweepConfig, area: string,
                    cells: seq<Circle>, ty: string, depth: int, ghost world: set<Business>)
    returns (quota: bool)
    requires Honest(client.respond, world)
    modifies client, acc, report`warnings
    ensures old(acc.byId).Keys <= acc.byId.Keys && old(report.warnings) <= report.warnings
    ensures quota || old(report.warnings) != report.warnings
            || forall k :: 0 <= k < |cells| ==> Collected(world, cells[k], ty, acc.byId.Keys)
    ensures acc.byId.Keys <= old(acc.byId).Keys + client.shown
    ensures old(client.shown) <= client.shown <= old(client.shown) + acc.byId.Keys
    ensures NoFalseAlarm(old(report.warnings), report.warnings, client.respond, client.calls, config)
    ensures quota ==> QuotaOnce(client.respond, client.calls, ty)
    ensures Labelled(old(acc.byId), acc.byId, area, "nearby:" + ty)
    ensures old(client.calls) <= client.calls
            <= old(client.calls) + |cells| * CallBound(config.factor, LevelsLeft(config, depth))
    ensures AlwaysFull(client.respond) ==>
              !quota
               && client.calls == old(client.calls) + |cells| * CallBound(config.factor, LevelsLeft(config, depth))
    decreases LevelsLeft(config, depth), 2
  {
    ghost var each := CallBound(config.factor, LevelsLeft(config, depth));
    for k := 0 to |cells|
      invariant old(acc.byId).Keys <= acc.byId.Keys && old(report.warnings) <= report.warnings
      invariant old(report.warnings) != report.warnings
                || forall m :: 0 <= m < k ==> Collected(world, cells[m], ty, acc.byId.Keys)
      invariant acc.byId.Keys <= old(acc.byId).Keys + client.shown
      invariant old(client.shown) <= client.shown <= old(client.shown) + acc.byId.Keys
      invariant NoFalseAlarm(old(report.warnings), report.warnings, client.respond, client.calls, config)
      invariant Labelled(old(acc.byId), acc.byId, area, "nearby:" + ty)
      invariant old(client.calls) <= client.calls <= old(client.calls) + k * each
      invariant AlwaysFull(client.respond) ==> client.calls == old(client.calls) + k * each
    {
      assert (k + 1) * each == k * each + each;
      ghost var calls := client.calls;
      ghost var warned, found := report.warnings, acc.byId;
      quota := NearbyPass(client, acc, report, config, area, cells[k], ty, depth, world);
      AlarmsAddUp(old(report.warnings), warned, report.warnings, client.respond, calls, client.calls, config);
      LabelsAddUp(old(acc.byId), found, acc.byId, area, "nearby:" + ty);
      if quota {
        MoreCells(k + 1, |cells|, each);
        return true;
      }
    }
    quota := false;
  }

  lemma AlarmsAddUp(first: seq<Warning>, second: seq<Warning>, third: seq<Warning>,
                    respond: (nat, Circle, string) -> Response, calls: nat, more: nat, config: SweepConfig)
    requires NoFalseAlarm(first, second, respond, calls, config)
    requires NoFalseAlarm(second, third, respond, more, config) && calls <= more
    ensures NoFalseAlarm(first, third, respond, more, config)
  {
    forall k | |first| <= k < |third|
      ensures Justified(third[k], respond, more, config)
    {
      if k < |second| {
        LaterCallsJustify(second[k], respond, calls, more, config);
      }
    }
  }

  lemma MoreCells(a: nat, b: nat, each: nat)
    requires a <= b
    ensures a * each <= b * each
  {}

  lemma GridCollects(world: set<Business>, c: Circle, factor: int, cells: seq<Circle>, ty: string, ids: set<PlaceId>)
    requires forall i, j :: 0 <= i < FactorOf(factor) && 0 <= j < FactorOf(factor) ==>
               Cell(c, FactorOf(factor), i, j) in cells
    requires forall k :: 0 <= k < |cells| ==> Collected(world, cells[k], ty, ids)
    ensures Collected(world, c, ty, ids)
  {
    forall b | b in world && ty in b.types && Inside(c, b.x, b.y)
               && Text.Strip(b.place.id) != "" && Text.Strip(b.place.name) != ""
      ensures Text.Strip(b.place.id) in ids
    {
      var i, j := GridCovers(c, factor, b.x, b.y);
      var k :| 0 <= k < |cells| && cells[k] == Cell(c, FactorOf(factor), i, j);
      assert Collected(world, cells[k], ty, ids);
    }
  }

  function Power(b: nat, e: nat): nat {
    if e == 0 then 1 else b * Power(b, e - 1)
  }

  // Sum of the powers of g from 0 to n.
  function PowerSum(g: nat, n: nat): nat {
    if n == 0 then 1 else PowerSum(g, n - 1) + Power(g, n)
  }

  lemma {:induction false} PowerSumShift(g: nat, n: nat)
    requires n > 0
    ensures PowerSum(g, n) == 1 + g * PowerSum(g, n - 1)
  {
    if n == 1 {
      assert Power(g, 1) == g * Power(g, 0);
    } else {
      PowerSumShift(g, n - 1);
      Spread(g, PowerSum(g, n - 2), Power(g, n - 1));
    }
  }

  lemma Spread(g: nat, a: nat, b: nat)
    ensures g * (a + b) == g * a + g * b
  {}

  // The call bound is the sum over the levels k of factor to the power 2k.
  lemma {:induction false} CallBoundIsPowerSum(factor: int, levels: nat)
    ensures CallBound(factor, levels) == PowerSum(FactorOf(factor) * FactorOf(factor), levels)
  {
    if levels > 0 {
      CallBoundIsPowerSum(factor, levels - 1);
      PowerSumShift(FactorOf(factor) * FactorOf(factor), levels);
    }
  }

  // --- The typed searches of a whole sweep ---

  // What looking up an area's centre gave.
  datatype Lookup = Found(circle: Circle) | NotFound | LookupQuota

  datatype Area = Area(name: string, lookup: Lookup)

  // What a sweep may warn of, besides what its passes warn of: an area that was not found, and the
  // area at which a lookup or a search met the end of the quota.
  ghost predicate Grounded(w: Warning, respond: (nat, Circle, string) -> Response, calls: nat, config: SweepConfig,
                           areas: seq<Area>, types: seq<string>)
  {
    match w
    case Unresolved(name) => exists a :: a in areas && a.name == name && a.lookup.NotFound?
    case QuotaStop(name) =>
      exists a :: a in areas && a.name == name &&
        (a.lookup.LookupQuota? || (a.lookup.Found? && exists ty :: ty in types && QuotaOnce(respond, calls, ty)))
    case _ => Justified(w, respond, calls, config)
  }

  lemma LaterCallsGround(w: Warning, respond: (nat, Circle, string) -> Response, calls: nat, more: nat,
                         config: SweepConfig, areas: seq<Area>, types: seq<string>)
    requires Grounded(w, respond, calls, config, areas, types) && calls <= more
    ensures Grounded(w, respond, more, config, areas, types)
  {
    match w
    case Unresolved(_) =>
    case QuotaStop(name) =>
      var a :| a in areas && a.name == name &&
        (a.lookup.LookupQuota? || (a.lookup.Found? && exists ty :: ty in types && QuotaOnce(respond, calls, ty)));
      if a.lookup.Found? {
        var ty :| ty in types && QuotaOnce(respond, calls, ty);
        assert QuotaOnce(respond, more, ty);
      }
    case _ => LaterCallsJustify(w, respond, calls, more, config);
  }

  // Areas in order, every included type in each; running out of quota stops the sweep. When
  // no warning was added, nothing identified in any area was missed.
  method SweepAreas(client: Client, acc: Accumulator, report: Report, config: SweepConfig,
                    areas: seq<Area>, types: seq<string>, ghost world: set<Business>)
    requires Honest(client.respond, world)
    modifies client, acc, report
    ensures old(report.warnings) <= report.warnings
    ensures report.warnings == old(report.warnings) ==>
              forall a :: a in areas ==> a.lookup.Found? && AllCollected(world, a.lookup.circle, types, acc.byId.Keys)
    ensures report.quotaExhausted && !old(report.quotaExhausted) ==> old(report.warnings) != report.warnings
    ensures acc.byId.Keys <= old(acc.byId).Keys + client.shown
    ensures forall k :: |old(report.warnings)| <= k < |report.warnings| ==>
              Grounded(report.warnings[k], client.respond, client.calls, config, areas, types)
  {
    for k := 0 to |areas|
      invariant forall m :: |old(report.warnings)| <= m < |report.warnings| ==>
                  Grounded(report.warnings[m], client.respond, client.calls, config, areas, types)
      invariant old(acc.byId).Keys <= acc.byId.Keys <= old(acc.byId).Keys + client.shown
      invariant old(report.warnings) <= report.warnings && report.quotaExhausted == old(report.quotaExhausted)
      invariant report.warnings == old(report.warnings) ==>
                  forall m :: 0 <= m < k ==>
                    areas[m].lookup.Found? && AllCollected(world, areas[m].lookup.circle, types, acc.byId.Keys)
    {
      match areas[k].lookup
      case LookupQuota =>
        report.quotaExhausted := true;
        report.warnings := report.warnings + [QuotaStop(areas[k].name)];
        return;
      case NotFound =>
        report.warnings := report.warnings + [Unresolved(areas[k].name)];
      case Found(circle) =>
        ghost var calls, warned := client.calls, report.warnings;
        var quota := SweepTypes(client, acc, report, config, areas[k].name, circle, types, world);
        ghost var passed := report.warnings;
        forall m | |old(report.warnings)| <= m < |passed|
          ensures Grounded(passed[m], client.respond, client.calls, config, areas, types)
        {
          if m < |warned| {
            LaterCallsGround(warned[m], client.respond, calls, client.calls, config, areas, types);
          }
        }
        if quota {
          report.quotaExhausted := true;
          report.warnings := report.warnings + [QuotaStop(areas[k].name)];
          return;
        }
    }
  }

  method SweepTypes(client: Client, acc: Accumulator, report: Report, config: SweepConfig, area: string,
                    c: Circle, types: seq<string>, ghost world: set<Business>)
    returns (quota: bool)
    requires Honest(client.respond, world)
    modifies client, acc, report`warnings
    ensures old(acc.byId).Keys <= acc.byId.Keys <= old(acc.byId).Keys + client.shown
    ensures old(client.shown) <= client.shown
    ensures old(report.warnings) <= report.warnings && old(client.calls) <= client.calls
    ensures quota || old(report.warnings) != report.warnings
            || AllCollected(world, c, types, acc.byId.Keys)
    ensures NoFalseAlarm(old(report.warnings), report.warnings, client.respond, client.calls, config)
    ensures quota ==> exists ty :: ty in types && QuotaOnce(client.respond, client.calls, ty)
  {
    for k := 0 to |types|
      invariant old(acc.byId).Keys <= acc.byId.Keys <= old(acc.byId).Keys + client.shown
      invariant old(client.shown) <= client.shown && old(client.calls) <= client.calls
      invariant old(report.warnings) <= report.warnings
      invariant old(report.warnings) != report.warnings
                || forall m :: 0 <= m < k ==> Collected(world, c, types[m], acc.byId.Keys)
      invariant NoFalseAlarm(old(report.warnings), report.warnings, client.respond, client.calls, config)
    {
      ghost var calls, warned := client.calls, report.warnings;
      quota := NearbyPass(client, acc, report, config, area, c, types[k], 0, world);
      AlarmsAddUp(old(report.warnings), warned, report.warnings, client.respond, calls, client.calls, config);
      if quota {
        assert types[k] in types;
        return;
      }
    }
    quota := false;
  }
}
