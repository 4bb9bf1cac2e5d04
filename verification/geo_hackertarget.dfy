/**
 The hackertarget.com adapter (`HackerTargetGeoIPService`). Its response
 is plain text, six `Label: value` lines in a fixed order (address,
 country, state, city, latitude, longitude), read by position.
 */
module HackerTarget {
  import opened Results
  import opened Text
  import opened Canonical

  /** The record the adapter fills; it inherits the five canonical properties. */
  datatype Record = Record(
    ipAddress: Option<string>,
    state: Option<string>,
    city: Option<string>,
    countryName: Option<string>,
    countryCode: Option<string>,
    latitude: real,
    longitude: real,
    timezone: Option<string>)

  /** `new HackerTargetGeoInfo()`: every string null, both coordinates 0. */
  const Fresh: Record := Record(None, None, None, None, None, 0.0, 0.0, None)

  /** The inherited canonical properties, read as they were filled. */
  function ToGeoInfo(r: Record): (g: GeoInfo)
    ensures Get(g, CountryName) == Str(r.countryName)
    ensures Get(g, CountryCode) == Str(r.countryCode)
    ensures Get(g, Latitude) == Number(r.latitude)
    ensures Get(g, Longitude) == Number(r.longitude)
    ensures Get(g, Timezone) == Str(r.timezone)
  {
    GeoInfo(r.countryName, r.countryCode, r.latitude, r.longitude, r.timezone)
  }

  /**
   The text between the first and the second `':'` of a line (up to the end
   of the line when there is no second one): a definition by position,
   independent of `Split`.
   */
  function Between(line: string): string
    requires ':' in line
  {
    var rest := line[IndexOf(line, ':') + 1..];
    rest[..IndexOf(rest, ':')]
  }

  /** The second piece of a split is the text between the first two separators. */
  lemma {:induction false} SecondPieceIsBetween(line: string)
    requires ':' in line
    ensures |Split(line, ':')| >= 2
    ensures Split(line, ':')[1] == Between(line)
  {
    SplitHead(line, ':');
    SplitHead(line[IndexOf(line, ':') + 1..], ':');
  }

  /** `lines[k].Split(':')[1]`: fails past the last line or on a line without `':'`. */
  function Piece(lines: seq<string>, k: nat): (r: Result<string>)
    ensures r.Ok? <==> k < |lines| && ':' in lines[k]
    ensures r.Ok? ==> r.value == Between(lines[k])
    ensures r.Err? ==> r.error == IndexOutOfRange
  {
    if k >= |lines| then Err(IndexOutOfRange)
    else
      var parts := Split(lines[k], ':');
      if |parts| < 2 then Err(IndexOutOfRange)
      else SecondPieceIsBetween(lines[k]); Ok(parts[1])
  }

  /** `float.Parse` on a piece; the current-culture parser is the parameter `parse`. */
  function ParseNumber(text: string, parse: string -> Option<real>): (r: Result<real>)
    ensures r.Ok? <==> parse(text).Some?
    ensures r.Ok? ==> r.value == parse(text).value
    ensures r.Err? ==> r.error == Format
  {
    match parse(text)
    case None => Err(Format)
    case Some(x) => Ok(x)
  }

  /** `float.Parse(lines[k].Split(':')[1])`. */
  function Coordinate(lines: seq<string>, k: nat, parse: string -> Option<real>): (r: Result<real>)
    ensures r.Ok? <==> k < |lines| && ':' in lines[k] && parse(Between(lines[k])).Some?
    ensures r.Ok? ==> r.value == parse(Between(lines[k])).value
    ensures r.Err? ==> r.error == IndexOutOfRange || r.error == Format
  {
    var text :- Piece(lines, k);
    ParseNumber(text, parse)
  }

  /** The six leading lines all carry a label separator. */
  predicate Labelled(lines: seq<string>) {
    && |lines| >= 6
    && ':' in lines[0] && ':' in lines[1] && ':' in lines[2]
    && ':' in lines[3] && ':' in lines[4] && ':' in lines[5]
  }

  /**
   `GetInfo`'s handling of the response body. A null or white-space body
   gives a fresh record and no error. Otherwise the body is split on
   `'\n'` and the lines are read as `Fields` describes.
   */
  function Parse(body: string, parse: string -> Option<real>): (r: Result<Record>)
    ensures IsBlank(body) ==> r == Ok(Fresh)
    ensures !IsBlank(body) ==>
      var lines := Split(body, '\n');
      && (r.Ok? <==> Labelled(lines) && parse(Between(lines[4])).Some? && parse(Between(lines[5])).Some?)
      && (r.Ok? ==>
            && r.value.ipAddress == Some(Trim(Between(lines[0])))
            && r.value.countryName == Some(Trim(Between(lines[1])))
            && r.value.state == Some(Trim(Between(lines[2])))
            && r.value.city == Some(Trim(Between(lines[3])))
            && r.value.latitude == parse(Between(lines[4])).value
            && r.value.longitude == parse(Between(lines[5])).value)
    ensures r.Err? ==> r.error == IndexOutOfRange || r.error == Format
  {
    if IsBlank(body) then Ok(Fresh)
    else Fields(Split(body, '\n'), parse)
  }

  /**
   The address, country, state and city are the trimmed text between the
   first two colons of lines 0 to 3; the coordinates are that text of
   lines 4 and 5, parsed untrimmed. Fewer than six lines or a line without
   a colon fails, and so does a coordinate that does not parse.
   */
  function Fields(lines: seq<string>, parse: string -> Option<real>): (r: Result<Record>)
    ensures r.Ok? <==> Labelled(lines) && parse(Between(lines[4])).Some? && parse(Between(lines[5])).Some?
    ensures r.Ok? ==>
      && r.value.ipAddress == Some(Trim(Between(lines[0])))
      && r.value.countryName == Some(Trim(Between(lines[1])))
      && r.value.state == Some(Trim(Between(lines[2])))
      && r.value.city == Some(Trim(Between(lines[3])))
      && r.value.latitude == parse(Between(lines[4])).value
      && r.value.longitude == parse(Between(lines[5])).value
      && r.value.countryCode.None? && r.value.timezone.None?
    ensures r.Err? ==> r.error == IndexOutOfRange || r.error == Format
  {
    var ip :- Piece(lines, 0);
    var country :- Piece(lines, 1);
    var state :- Piece(lines, 2);
    var city :- Piece(lines, 3);
    var lat :- Coordinate(lines, 4, parse);
    var lon :- Coordinate(lines, 5, parse);
    Ok(Fresh.(ipAddress := Some(Trim(ip)), countryName := Some(Trim(country)),
              state := Some(Trim(state)), city := Some(Trim(city)),
              latitude := lat, longitude := lon))
  }

  /** The record does not override `ToString()`: its display is the country name. */
  function Display(r: Record): (d: Option<string>)
    ensures d == r.countryName
  {
    DefaultDisplay(ToGeoInfo(r))
  }

  /**
   What `ToString()` shows for a response: null for a blank body, whose
   record is fresh; otherwise, when the body parses, the trimmed text
   between the first two colons of its second line, the country line.
   */
  lemma ParsedDisplay(body: string, parse: string -> Option<real>)
    ensures IsBlank(body) ==> Parse(body, parse).Ok? && Display(Parse(body, parse).value) == None
    ensures !IsBlank(body) && Parse(body, parse).Ok? ==>
      Display(Parse(body, parse).value) == Some(Trim(Between(Split(body, '\n')[1])))
  {
  }

  /** `?q={ip}`: the address inserted verbatim. */
  function Target(ip: string): (t: string)
    ensures Clean(ip) ==> ParseQuery(t) == Some([Param("q", ip)])
  {
    QueryOne("q", ip);
    assert "?q=" + ip == "?" + "q" + "=" + ip;
    if Clean(ip) then QueryRoundTrip([Param("q", ip)]); "?q=" + ip else "?q=" + ip
  }

  /** A `name:text` line, possibly followed by `:more`, yields `text`. */
  lemma LabelLine(name: string, text: string, tail: string)
    requires ':' !in name && ':' !in text
    requires tail == [] || tail[0] == ':'
    ensures ':' in name + ":" + text + tail
    ensures Between(name + ":" + text + tail) == text
  {
    var line := name + ":" + text + tail;
    IndexOfAfter(name, text + tail, ':');
    assert line == name + [':'] + (text + tail);
    var rest := line[|name| + 1..];
    assert rest == text + tail;
    if tail == [] {
      IndexOfAbsent(text, ':');
    } else {
      IndexOfAfter(text, tail[1..], ':');
      assert rest == text + [':'] + tail[1..];
    }
  }

  /** The body a provider sends: one `name:value` line per entry, joined by `'\n'`. */
  function Body(names: seq<string>, values: seq<string>): string
    requires |names| == |values|
  {
    Join(Lines(names, values), "\n")
  }

  function Lines(names: seq<string>, values: seq<string>): (lines: seq<string>)
    requires |names| == |values|
    ensures |lines| == |names|
    ensures forall k :: 0 <= k < |lines| ==> lines[k] == names[k] + ":" + values[k]
  {
    seq(|names|, k requires 0 <= k < |names| => names[k] + ":" + values[k])
  }

  /**
   Reading back a well-formed body: for six `name:value` lines whose names
   and values hold no colon or line break, the record carries the trimmed
   values of the first four lines and the parsed values of the last two.
   */
  lemma WellFormedBody(names: seq<string>, values: seq<string>, parse: string -> Option<real>)
    requires |names| == 6 && |values| == 6
    requires forall k :: 0 <= k < 6 ==> ':' !in names[k] && ':' !in values[k]
    requires forall k :: 0 <= k < 6 ==> '\n' !in names[k] && '\n' !in values[k]
    requires parse(values[4]).Some? && parse(values[5]).Some?
    ensures var r := Parse(Body(names, values), parse);
      && r.Ok?
      && r.value.ipAddress == Some(Trim(values[0]))
      && r.value.countryName == Some(Trim(values[1]))
      && r.value.state == Some(Trim(values[2]))
      && r.value.city == Some(Trim(values[3]))
      && r.value.latitude == parse(values[4]).value
      && r.value.longitude == parse(values[5]).value
  {
    LabelledLines(names, values);
    BodySplitsIntoLines(names, values);
    FieldsOfLabelledLines(Lines(names, values), values, parse);
  }

  /** Each `name:value` line holds a colon, no line break, and labels its value. */
  lemma LabelledLines(names: seq<string>, values: seq<string>)
    requires |names| == |values|
    requires forall k :: 0 <= k < |names| ==> ':' !in names[k] && ':' !in values[k]
    requires forall k :: 0 <= k < |names| ==> '\n' !in names[k] && '\n' !in values[k]
    ensures forall k :: 0 <= k < |names| ==>
      '\n' !in Lines(names, values)[k] && ':' in Lines(names, values)[k] && Between(Lines(names, values)[k]) == values[k]
  {
    var lines := Lines(names, values);
    forall k | 0 <= k < |names| ensures '\n' !in lines[k] && ':' in lines[k] && Between(lines[k]) == values[k] {
      assert lines[k] == names[k] + ":" + values[k] + "";
      LabelLine(names[k], values[k], "");
    }
  }

  /** A body of lines without line breaks, the first holding a colon, is not blank and splits back into its lines. */
  lemma BodySplitsIntoLines(names: seq<string>, values: seq<string>)
    requires |names| == |values| && |names| >= 1
    requires forall k :: 0 <= k < |names| ==> '\n' !in Lines(names, values)[k]
    requires ':' in Lines(names, values)[0]
    ensures Split(Body(names, values), '\n') == Lines(names, values)
    ensures !IsBlank(Body(names, values))
  {
    var lines := Lines(names, values);
    var body := Body(names, values);
    SplitJoin(lines, '\n');
    JoinHasPiece(lines, "\n");
    var i :| 0 <= i < |lines[0]| && lines[0][i] == ':';
    assert body[i] == ':';
  }

  /** Six lines whose labelled texts are `values` read as those values. */
  lemma FieldsOfLabelledLines(lines: seq<string>, values: seq<string>, parse: string -> Option<real>)
    requires |lines| == 6 && |values| == 6
    requires forall k :: 0 <= k < 6 ==> ':' in lines[k] && Between(lines[k]) == values[k]
    requires parse(values[4]).Some? && parse(values[5]).Some?
    ensures var r := Fields(lines, parse);
      && r.Ok?
      && r.value.ipAddress == Some(Trim(values[0]))
      && r.value.countryName == Some(Trim(values[1]))
      && r.value.state == Some(Trim(values[2]))
      && r.value.city == Some(Trim(values[3]))
      && r.value.latitude == parse(values[4]).value
      && r.value.longitude == parse(values[5]).value
  {
    assert Labelled(lines);
  }

  /** A join contains the characters of its first piece. */
  lemma JoinHasPiece(ps: seq<string>, sep: string)
    requires |ps| > 0 && |ps[0]| > 0
    ensures |Join(ps, sep)| >= |ps[0]| && Join(ps, sep)[..|ps[0]|] == ps[0]
  {
  }

  /**
   An address line is cut at the address's own first colon: for an IPv6
   address such as `2001:db8::1` only `2001` is kept.
   */
  lemma AddressCutAtColon(name: string, head: string, tail: string)
    requires ':' !in name && ':' !in head
    ensures Between(name + ":" + head + ":" + tail) == head
  {
    assert name + ":" + head + ":" + tail == name + ":" + head + (":" + tail);
    LabelLine(name, head, ":" + tail);
  }
}
