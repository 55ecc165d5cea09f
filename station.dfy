/**
 * Start-up resolution: the line filters (`get_lines_filter`, src/main.py:230-253), the line check
 * (`check_lines`, src/main.py:214-227) and the choice of stop point (`get_station_id`,
 * src/main.py:134-211). The HTTP queries are inputs: each query is given by what it returned.
 */
module Station {
  import opened Outcomes
  import Text
  import Arrivals

  /** The errors that end the program during start-up. */
  datatype StartupError =
    | LookupFailed(line: string)   // the line search raised or its reply had no `get`
    | LineNotFound(line: string)   // the line search found no match
    | SearchFailed                 // the station search raised
    | StationNotFound              // the station search found no match
    | DetailsFailed                // the stop-point detail query raised
    | NoDetails(stationId: string) // the stop-point detail reply was empty
    | NotServed                    // no stop point is a metro station serving every filter line

  /** One configured line: its name and its direction substring (`entry.get("direction")`). */
  datatype LineConfig = LineConfig(line: string, direction: Option<string>)

  /** The line search for one configured line: raised, no matches, or the first match's `lineId`. */
  datatype LineLookup = LookupRaised | NoMatches | Matched(lineId: Option<string>)

  function LookupError(c: LineConfig, reply: LineLookup): StartupError {
    if reply.LookupRaised? then LookupFailed(c.line) else LineNotFound(c.line)
  }

  /** The entry adds a pair: its line was found with a non-empty id and its direction is non-empty. */
  predicate Contributes(c: LineConfig, reply: LineLookup) {
    reply.Matched? && Arrivals.Truthy(reply.lineId) && Arrivals.Truthy(c.direction)
  }

  /** The pair the entry adds, both parts lower-cased. */
  function PairOf(c: LineConfig, reply: LineLookup): (string, string)
    requires Contributes(c, reply)
  {
    (Text.Lower(reply.lineId.value), Text.Lower(c.direction.value))
  }

  /**
   * `get_lines_filter`: one line search per configured entry, `lookup(i)` being the reply of the
   * search made for `config[i]`. The first entry whose search raised or found nothing ends the
   * start-up; otherwise the filter holds the lower-cased pair of every entry whose line id and
   * direction are both non-empty, and nothing else.
   */
  method GetLinesFilter(config: seq<LineConfig>, lookup: nat -> LineLookup)
    returns (r: Result<Arrivals.LineFilter, StartupError>)
    ensures r.Failure? <==> exists i :: 0 <= i < |config| && !lookup(i).Matched?
    ensures r.Failure? ==>
      exists i :: 0 <= i < |config| && !lookup(i).Matched?
        && r.error == LookupError(config[i], lookup(i))
        && forall j :: 0 <= j < i ==> lookup(j).Matched?
    ensures r.Success? ==> forall p :: p in r.value <==>
      exists i :: 0 <= i < |config| && Contributes(config[i], lookup(i)) && PairOf(config[i], lookup(i)) == p
    ensures r.Success? ==> forall p :: p in r.value ==>
      p.0 != "" && p.1 != "" && Text.IsLower(p.0) && Text.IsLower(p.1)
  {
    var filterSet: Arrivals.LineFilter := {};
    for i := 0 to |config|
      invariant forall j :: 0 <= j < i ==> lookup(j).Matched?
      invariant forall p :: p in filterSet <==>
        exists j :: 0 <= j < i && Contributes(config[j], lookup(j)) && PairOf(config[j], lookup(j)) == p
      invariant forall p :: p in filterSet ==> p.0 != "" && p.1 != "" && Text.IsLower(p.0) && Text.IsLower(p.1)
    {
      var entry := config[i];
      var reply := lookup(i);
      if !reply.Matched? {
        return Failure(LookupError(entry, reply));
      }
      if Contributes(entry, reply) {
        var pair := PairOf(entry, reply);
        Text.LowerIsLower(reply.lineId.value);
        Text.LowerIsLower(entry.direction.value);
        filterSet := filterSet + {pair};
      }
    }
    r := Success(filterSet);
  }

  /** One entry of a stop point's `lines`. */
  datatype LineInfo = LineInfo(id: string)

  /** A stop point as the detail query returns it (the primary one or a child). */
  datatype StopPoint = StopPoint(stopType: Option<string>, lines: seq<LineInfo>, commonName: Option<string>, id: Option<string>)

  /** The detail reply: the primary stop point and its children. */
  datatype StationDetail = StationDetail(point: StopPoint, children: seq<StopPoint>)

  /** The station handed to the workers: `{"name": commonName, "id": id}`. */
  datatype StationInfo = StationInfo(name: Option<string>, id: Option<string>)

  function LineIds(f: Arrivals.LineFilter): set<string> {
    set p | p in f :: p.0
  }

  function ServedIds(lines: seq<LineInfo>): set<string> {
    set i | 0 <= i < |lines| :: lines[i].id
  }

  /** `check_lines`: the stop point serves every line named in either filter. */
  function CheckLines(lines: seq<LineInfo>, f1: Arrivals.LineFilter, f2: Arrivals.LineFilter): (r: bool)
    ensures r <==> forall p :: p in f1 + f2 ==> exists i :: 0 <= i < |lines| && lines[i].id == p.0
  {
    var ok := LineIds(f1) + LineIds(f2) <= ServedIds(lines);
    assert ok ==> forall p :: p in f1 + f2 ==> p.0 in ServedIds(lines);
    assert !ok ==> exists p :: p in f1 + f2 && p.0 !in ServedIds(lines);
    ok
  }

  const MetroStation: string := "NaptanMetroStation"

  predicate Qualifies(sp: StopPoint, f1: Arrivals.LineFilter, f2: Arrivals.LineFilter) {
    sp.stopType == Some(MetroStation) && CheckLines(sp.lines, f1, f2)
  }

  /** The first qualifying stop point among `children`. */
  function FirstQualifying(children: seq<StopPoint>, f1: Arrivals.LineFilter, f2: Arrivals.LineFilter): Option<StopPoint> {
    if children == [] then None
    else if Qualifies(children[0], f1, f2) then Some(children[0])
    else FirstQualifying(children[1..], f1, f2)
  }

  /** The stop point `get_station_id` settles on. */
  function Chosen(d: StationDetail, f1: Arrivals.LineFilter, f2: Arrivals.LineFilter): Option<StopPoint> {
    if Qualifies(d.point, f1, f2) then Some(d.point) else FirstQualifying(d.children, f1, f2)
  }

  lemma {:induction false} FirstQualifyingMeaning(children: seq<StopPoint>, f1: Arrivals.LineFilter, f2: Arrivals.LineFilter)
    ensures FirstQualifying(children, f1, f2).None? <==> forall i :: 0 <= i < |children| ==> !Qualifies(children[i], f1, f2)
    ensures FirstQualifying(children, f1, f2).Some? ==>
      exists i :: 0 <= i < |children|
        && FirstQualifying(children, f1, f2) == Some(children[i])
        && Qualifies(children[i], f1, f2)
        && forall j :: 0 <= j < i ==> !Qualifies(children[j], f1, f2)
  {
    if children != [] && !Qualifies(children[0], f1, f2) {
      FirstQualifyingMeaning(children[1..], f1, f2);
      var r := FirstQualifying(children, f1, f2);
      if r.Some? {
        var i :| 0 <= i < |children[1..]| && r == Some(children[1..][i]) && Qualifies(children[1..][i], f1, f2)
          && forall j :: 0 <= j < i ==> !Qualifies(children[1..][j], f1, f2);
        assert r == Some(children[i + 1]);
        assert forall j :: 0 <= j < i + 1 ==> !Qualifies(children[j], f1, f2);
      }
    }
  }

  /** The primary stop point wins when it qualifies; otherwise the first qualifying child, and
      nothing when none qualifies. */
  lemma ChosenMeaning(d: StationDetail, f1: Arrivals.LineFilter, f2: Arrivals.LineFilter)
    ensures Qualifies(d.point, f1, f2) ==> Chosen(d, f1, f2) == Some(d.point)
    ensures Chosen(d, f1, f2).None? <==>
      !Qualifies(d.point, f1, f2) && forall i :: 0 <= i < |d.children| ==> !Qualifies(d.children[i], f1, f2)
    ensures !Qualifies(d.point, f1, f2) && Chosen(d, f1, f2).Some? ==>
      exists i :: 0 <= i < |d.children|
        && Chosen(d, f1, f2) == Some(d.children[i])
        && Qualifies(d.children[i], f1, f2)
        && forall j :: 0 <= j < i ==> !Qualifies(d.children[j], f1, f2)
  {
    FirstQualifyingMeaning(d.children, f1, f2);
  }

  /** The matching step of `get_station_id`: the primary stop point, else a loop over the children
      that stops at the first qualifying one. */
  method ChooseStopPoint(d: StationDetail, f1: Arrivals.LineFilter, f2: Arrivals.LineFilter) returns (r: Option<StopPoint>)
    ensures r == Chosen(d, f1, f2)
  {
    if Qualifies(d.point, f1, f2) {
      return Some(d.point);
    }
    r := None;
    var i := 0;
    while i < |d.children|
      invariant 0 <= i <= |d.children|
      invariant FirstQualifying(d.children[i..], f1, f2) == FirstQualifying(d.children, f1, f2)
    {
      assert d.children[i..][1..] == d.children[i + 1..];
      if Qualifies(d.children[i], f1, f2) {
        return Some(d.children[i]);
      }
      i := i + 1;
    }
  }

  /** The station search reply: the ids of its matches (empty when the reply was empty or had no
      matches), or a raised query. */
  datatype SearchReply = SearchRaised | SearchReturned(matchIds: seq<string>)

  /** The detail reply for a stop-point id: raised, empty, or the stop point with its children. */
  datatype DetailReply = DetailRaised | DetailEmpty | DetailReturned(detail: StationDetail)

  /** `get_station_id`. */
  method GetStationId(search: SearchReply, detailOf: string -> DetailReply, f1: Arrivals.LineFilter, f2: Arrivals.LineFilter)
    returns (r: Result<StationInfo, StartupError>)
    ensures search.SearchRaised? ==> r == Failure(SearchFailed)
    ensures search.SearchReturned? && search.matchIds == [] ==> r == Failure(StationNotFound)
    ensures search.SearchReturned? && search.matchIds != [] ==>
      match detailOf(search.matchIds[0])
      case DetailRaised => r == Failure(DetailsFailed)
      case DetailEmpty => r == Failure(NoDetails(search.matchIds[0]))
      case DetailReturned(d) =>
        match Chosen(d, f1, f2)
        case None => r == Failure(NotServed)
        case Some(sp) => r == Success(StationInfo(sp.commonName, sp.id))
  {
    if search.SearchRaised? {
      return Failure(SearchFailed);
    }
    if search.matchIds == [] {
      return Failure(StationNotFound);
    }
    var searchResultId := search.matchIds[0];
    match detailOf(searchResultId)
    case DetailRaised =>
      r := Failure(DetailsFailed);
    case DetailEmpty =>
      r := Failure(NoDetails(searchResultId));
    case DetailReturned(d) =>
      var chosen := ChooseStopPoint(d, f1, f2);
      if chosen.Some? {
        r := Success(StationInfo(chosen.value.commonName, chosen.value.id));
      } else {
        r := Failure(NotServed);
      }
  }
}
