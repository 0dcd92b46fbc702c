/** The movie schema of schemas/movies.js: field constraints, the full-mode
    parser (`validateMovie`) and the partial-mode parser (`validatePartialMovie`). */
module MovieSchema {
  import opened Results
  import opened Json

  /* ---------------------------------------------------------------------
     Constants of the schema
     --------------------------------------------------------------------- */

  const TitleTypeMessage: string := "El título de la película debe ser string"
  const TitleRequiredMessage: string := "El título de la pelicula es requerido."
  const PosterUrlMessage: string := "Poster debe ser una URL válida"
  const GenreRequiredMessage: string := "El género de la película es requerido."
  const GenreTypeMessage: string := "El género de la película debe ser un arreglo de valores enumerados"
  /** The library's message for a required field left out, where the schema sets none. */
  const RequiredMessage: string := "Required"

  /** The ten values of the genre enumeration, in declaration order. */
  const GenreNames: seq<string> :=
    ["Action", "Adventure", "Comedy", "Drama", "Fantasy",
     "Horror", "Thriller", "Crime", "Suspense", "Sci-Fi"]
  /** The enumeration as the library lists it in its messages. */
  const GenreOptions: string :=
    "'Action' | 'Adventure' | 'Comedy' | 'Drama' | 'Fantasy' | 'Horror' | 'Thriller' | 'Crime' | 'Suspense' | 'Sci-Fi'"

  /** The value `rate` takes in full mode when the input leaves it out. */
  const DefaultRate: real := 5.5

  /** The six keys of the schema; every other key of the input is dropped. */
  const SchemaKeys: set<string> := {"title", "year", "duration", "rate", "poster", "genre"}

  /* ---------------------------------------------------------------------
     Problems reported on failure
     --------------------------------------------------------------------- */

  /** The two entry points: every field required, or every field optional. */
  datatype Mode = Full | Partial

  /** Where a problem lies: the body itself, one of its fields, or an element of an array field. */
  datatype Path = Root | Key(name: string) | Element(name: string, index: nat)

  /** The library's issue codes, with the details it attaches to each. A missing
      field and a non-integer number are both reported as `invalid_type`. */
  datatype Code =
    | InvalidType(expected: string, received: string)
    | TooSmall(minimum: nat, inclusive: bool)
    | TooBig(maximum: nat, inclusive: bool)
    | InvalidString(validation: string)
    | InvalidEnumValue(received: string)

  /** One field-level problem, as listed in the 400 response. */
  datatype Issue = Issue(path: Path, code: Code, message: string)

  /** The field a problem is about; "" for a problem about the body as a whole. */
  function KeyOf(p: Path): string {
    match p
    case Root => ""
    case Key(name) => name
    case Element(name, _) => name
  }

  /** The set of fields named by a list of problems. */
  function BlamedKeys(issues: seq<Issue>): set<string> {
    set i | i in issues :: KeyOf(i.path)
  }

  /** A non-empty list of problems, every one about field `key`. */
  predicate Blames(issues: seq<Issue>, key: string) {
    |issues| > 0 && forall i :: 0 <= i < |issues| ==> KeyOf(issues[i].path) == key
  }

  /* ---------------------------------------------------------------------
     Numeric checks: `.int()`, `.positive()`, `.min(b)`, `.max(b)`
     --------------------------------------------------------------------- */

  datatype Check = IsInteger | Gt(bound: nat) | Gte(bound: nat) | Lte(bound: nat)

  const YearChecks: seq<Check> := [IsInteger, Gt(0), Gte(1900), Lte(2023)]
  const DurationChecks: seq<Check> := [IsInteger, Gt(0)]
  const RateChecks: seq<Check> := [Gt(0), Gte(0), Lte(10)]

  predicate Holds(c: Check, n: real) {
    match c
    case IsInteger => IsInt(n)
    case Gt(b) => n > b as real
    case Gte(b) => n >= b as real
    case Lte(b) => n <= b as real
  }

  /** Decimal digits of a natural number, for the messages that quote a bound. */
  function Decimal(n: nat): string {
    if n < 10 then ["0123456789"[n]] else Decimal(n / 10) + ["0123456789"[n % 10]]
  }

  /** The problem a failed check reports. */
  function CheckIssue(key: string, c: Check): Issue {
    match c
    case IsInteger => Issue(Key(key), InvalidType("integer", "float"), "Expected integer, received float")
    case Gt(b) => Issue(Key(key), TooSmall(b, false), "Number must be greater than " + Decimal(b))
    case Gte(b) => Issue(Key(key), TooSmall(b, true), "Number must be greater than or equal to " + Decimal(b))
    case Lte(b) => Issue(Key(key), TooBig(b, true), "Number must be less than or equal to " + Decimal(b))
  }

  /** Runs every check in order and reports each one that fails (the library
      does not stop at the first failure). */
  function CheckIssues(key: string, n: real, checks: seq<Check>): (r: seq<Issue>)
    ensures r == [] <==> forall c :: c in checks ==> Holds(c, n)
    ensures |r| <= |checks|
    ensures forall i :: 0 <= i < |r| ==> r[i].path == Key(key)
    decreases |checks|
  {
    if checks == [] then []
    else
      (if Holds(checks[0], n) then [] else [CheckIssue(key, checks[0])])
      + CheckIssues(key, n, checks[1..])
  }

  /** Every failing check is reported, and nothing but failing checks. */
  lemma {:induction false} CheckIssuesReport(key: string, n: real, checks: seq<Check>)
    ensures forall c :: c in checks && !Holds(c, n) ==> CheckIssue(key, c) in CheckIssues(key, n, checks)
    ensures forall x :: x in CheckIssues(key, n, checks) ==> exists c :: c in checks && !Holds(c, n) && x == CheckIssue(key, c)
    decreases |checks|
  {
    if checks != [] {
      CheckIssuesReport(key, n, checks[1..]);
      var head := if Holds(checks[0], n) then [] else [CheckIssue(key, checks[0])];
      assert CheckIssues(key, n, checks) == head + CheckIssues(key, n, checks[1..]);
      forall c | c in checks && !Holds(c, n) ensures CheckIssue(key, c) in CheckIssues(key, n, checks) {
        if c != checks[0] {
          assert c in checks[1..];
        }
      }
      forall x | x in CheckIssues(key, n, checks)
        ensures exists c :: c in checks && !Holds(c, n) && x == CheckIssue(key, c)
      {
        if x !in head {
          var c :| c in checks[1..] && !Holds(c, n) && x == CheckIssue(key, c);
          assert c in checks;
        }
      }
    }
  }

  /* ---------------------------------------------------------------------
     What each field accepts (reference definitions)
     --------------------------------------------------------------------- */

  predicate TitleOk(v: Value) { v.Str? }
  predicate YearOk(v: Value) { v.Num? && IsInt(v.n) && 1900.0 <= v.n <= 2023.0 }
  predicate DurationOk(v: Value) { v.Num? && IsInt(v.n) && v.n > 0.0 }
  predicate RateOk(v: Value) { v.Num? && 0.0 < v.n <= 10.0 }
  predicate PosterOk(v: Value, isUrl: string -> bool) { v.Str? && isUrl(v.s) }
  predicate IsGenreName(v: Value) { v.Str? && v.s in GenreNames }
  predicate GenreOk(v: Value) {
    v.Arr? && forall i :: 0 <= i < |v.items| ==> IsGenreName(v.items[i])
  }

  /** A field passes when present and acceptable, or when absent and not
      required; in full mode only `rate` may be absent (it has a default). */
  predicate TitleAccepted(m: map<string, Value>, mode: Mode) {
    if "title" in m then TitleOk(m["title"]) else mode == Partial
  }
  predicate YearAccepted(m: map<string, Value>, mode: Mode) {
    if "year" in m then YearOk(m["year"]) else mode == Partial
  }
  predicate DurationAccepted(m: map<string, Value>, mode: Mode) {
    if "duration" in m then DurationOk(m["duration"]) else mode == Partial
  }
  predicate RateAccepted(m: map<string, Value>) {
    "rate" in m ==> RateOk(m["rate"])
  }
  predicate PosterAccepted(m: map<string, Value>, mode: Mode, isUrl: string -> bool) {
    if "poster" in m then PosterOk(m["poster"], isUrl) else mode == Partial
  }
  predicate GenreAccepted(m: map<string, Value>, mode: Mode) {
    if "genre" in m then GenreOk(m["genre"]) else mode == Partial
  }

  /** The inputs the schema accepts in the given mode. */
  predicate Acceptable(body: Value, mode: Mode, isUrl: string -> bool) {
    && body.Obj?
    && TitleAccepted(body.fields, mode)
    && YearAccepted(body.fields, mode)
    && DurationAccepted(body.fields, mode)
    && RateAccepted(body.fields)
    && PosterAccepted(body.fields, mode, isUrl)
    && GenreAccepted(body.fields, mode)
  }

  /** The schema fields of an object body that fail their constraint. */
  function Offending(m: map<string, Value>, mode: Mode, isUrl: string -> bool): set<string> {
    (if TitleAccepted(m, mode) then {} else {"title"})
    + (if YearAccepted(m, mode) then {} else {"year"})
    + (if DurationAccepted(m, mode) then {} else {"duration"})
    + (if RateAccepted(m) then {} else {"rate"})
    + (if PosterAccepted(m, mode, isUrl) then {} else {"poster"})
    + (if GenreAccepted(m, mode) then {} else {"genre"})
  }

  /* ---------------------------------------------------------------------
     Parsed data
     --------------------------------------------------------------------- */

  /** The problems of one parsed field (none when it is valid). */
  function IssuesOf<T>(p: Result<T, seq<Issue>>): seq<Issue> {
    if p.Failure? then p.error else []
  }

  /** The data of a movie as the full-mode parser returns it. */
  datatype MovieData = MovieData(
    title: string, year: int, duration: int, rate: real, poster: string, genre: seq<string>)

  /** The data as the partial-mode parser returns it: an absent field is `None`. */
  datatype MoviePatch = MoviePatch(
    title: Option<string>, year: Option<int>, duration: Option<int>,
    rate: Option<real>, poster: Option<string>, genre: Option<seq<string>>)

  /** Every constraint of the schema holds of a full record. */
  predicate MovieOk(d: MovieData, isUrl: string -> bool) {
    && 1900 <= d.year <= 2023
    && d.duration > 0
    && 0.0 < d.rate <= 10.0
    && isUrl(d.poster)
    && forall i :: 0 <= i < |d.genre| ==> d.genre[i] in GenreNames
  }

  /** Every field present in a patch meets its constraint. */
  predicate PatchOk(p: MoviePatch, isUrl: string -> bool) {
    && (p.year.Some? ==> 1900 <= p.year.value <= 2023)
    && (p.duration.Some? ==> p.duration.value > 0)
    && (p.rate.Some? ==> 0.0 < p.rate.value <= 10.0)
    && (p.poster.Some? ==> isUrl(p.poster.value))
    && (p.genre.Some? ==> forall i :: 0 <= i < |p.genre.value| ==> p.genre.value[i] in GenreNames)
  }

  /** The keys the parsed data carries when spread into an object. */
  function PresentKeys(p: MoviePatch): set<string> {
    (if p.title.Some? then {"title"} else {})
    + (if p.year.Some? then {"year"} else {})
    + (if p.duration.Some? then {"duration"} else {})
    + (if p.rate.Some? then {"rate"} else {})
    + (if p.poster.Some? then {"poster"} else {})
    + (if p.genre.Some? then {"genre"} else {})
  }

  /* Reading typed values out of the input. */

  function StrAt(m: map<string, Value>, key: string): Option<string> {
    if key in m && m[key].Str? then Some(m[key].s) else None
  }
  function NumAt(m: map<string, Value>, key: string): Option<real> {
    if key in m && m[key].Num? then Some(m[key].n) else None
  }
  function IntAt(m: map<string, Value>, key: string): Option<int> {
    if key in m && m[key].Num? then Some(m[key].n.Floor) else None
  }
  function Strings(items: seq<Value>): seq<string> {
    seq(|items|, i requires 0 <= i < |items| => if items[i].Str? then items[i].s else "")
  }
  function StringsAt(m: map<string, Value>, key: string): Option<seq<string>> {
    if key in m && m[key].Arr? then Some(Strings(m[key].items)) else None
  }

  /** The parsed data carries the input's fields, and, in full mode, the default for a missing `rate`. */
  predicate Carries(m: map<string, Value>, mode: Mode, p: MoviePatch) {
    && p.title == StrAt(m, "title")
    && p.year == IntAt(m, "year")
    && p.duration == IntAt(m, "duration")
    && p.rate == (if "rate" !in m && mode == Full then Some(DefaultRate) else NumAt(m, "rate"))
    && p.poster == StrAt(m, "poster")
    && p.genre == StringsAt(m, "genre")
  }

  /* ---------------------------------------------------------------------
     Parsing one value
     --------------------------------------------------------------------- */

  /** `z.number()` followed by its checks. */
  function ParseNumber(key: string, v: Value, checks: seq<Check>): (r: Result<real, seq<Issue>>)
    ensures r.Success? <==> v.Num? && forall c :: c in checks ==> Holds(c, v.n)
    ensures r.Success? ==> r.value == v.n
    ensures r.Failure? ==> Blames(r.error, key)
  {
    if !v.Num? then
      Failure([Issue(Key(key), InvalidType("number", TypeName(v)), "Expected number, received " + TypeName(v))])
    else
      var problems := CheckIssues(key, v.n, checks);
      if problems == [] then Success(v.n) else Failure(problems)
  }

  /** The problem one element of `genre` reports when it is not a genre name. */
  function GenreElementIssue(v: Value, index: nat): Issue {
    if v.Str? then
      Issue(Element("genre", index), InvalidEnumValue(v.s),
            "Invalid enum value. Expected " + GenreOptions + ", received '" + v.s + "'")
    else
      Issue(Element("genre", index), InvalidType(GenreOptions, TypeName(v)),
            "Expected " + GenreOptions + ", received " + TypeName(v))
  }

  /** Checks every element of the `genre` array against the enumeration;
      `from` is the index of `items[0]` in the whole array. */
  function ElementIssues(items: seq<Value>, from: nat): (r: seq<Issue>)
    ensures r == [] <==> forall i :: 0 <= i < |items| ==> IsGenreName(items[i])
    ensures forall i :: 0 <= i < |r| ==> r[i].path.Element? && r[i].path.name == "genre"
    ensures forall i :: 0 <= i < |r| ==> from <= r[i].path.index < from + |items|
    decreases |items|
  {
    if items == [] then []
    else
      (if IsGenreName(items[0]) then [] else [GenreElementIssue(items[0], from)])
      + ElementIssues(items[1..], from + 1)
  }

  /** The element at index `i`, when it is not a genre name, is reported with index `from + i`. */
  lemma {:induction false} ElementIssueAt(items: seq<Value>, from: nat, i: nat)
    requires i < |items| && !IsGenreName(items[i])
    ensures GenreElementIssue(items[i], from + i) in ElementIssues(items, from)
    decreases i
  {
    if i > 0 {
      ElementIssueAt(items[1..], from + 1, i - 1);
      assert items[1..][i - 1] == items[i];
    }
  }

  /** Every element that is not a genre name is reported, with its own index. */
  lemma {:induction false} ElementIssuesComplete(items: seq<Value>, from: nat)
    ensures forall i :: 0 <= i < |items| && !IsGenreName(items[i]) ==>
      GenreElementIssue(items[i], from + i) in ElementIssues(items, from)
  {
    forall i | 0 <= i < |items| && !IsGenreName(items[i])
      ensures GenreElementIssue(items[i], from + i) in ElementIssues(items, from)
    {
      ElementIssueAt(items, from, i);
    }
  }

  /** Every problem reported is about an element that is not a genre name, at its own index. */
  lemma {:induction false} ElementIssuesSound(items: seq<Value>, from: nat)
    ensures forall x :: x in ElementIssues(items, from) ==>
      exists i :: 0 <= i < |items| && !IsGenreName(items[i]) && x == GenreElementIssue(items[i], from + i)
    decreases |items|
  {
    if items != [] {
      var tail := items[1..];
      ElementIssuesSound(tail, from + 1);
      var head := if IsGenreName(items[0]) then [] else [GenreElementIssue(items[0], from)];
      assert ElementIssues(items, from) == head + ElementIssues(tail, from + 1);
      forall x | x in ElementIssues(items, from)
        ensures exists i :: 0 <= i < |items| && !IsGenreName(items[i]) && x == GenreElementIssue(items[i], from + i)
      {
        if x !in head {
          var i :| 0 <= i < |tail| && !IsGenreName(tail[i]) && x == GenreElementIssue(tail[i], from + 1 + i);
          assert items[i + 1] == tail[i];
        }
      }
    }
  }

  /* ---------------------------------------------------------------------
     Parsing each field of an object body
     --------------------------------------------------------------------- */

  /** A required field left out: `received: "undefined"`, with the field's required message. */
  function Missing<T>(key: string, expected: string, message: string): Result<Option<T>, seq<Issue>> {
    Failure([Issue(Key(key), InvalidType(expected, "undefined"), message)])
  }

  function Lift<T>(p: Result<T, seq<Issue>>): Result<Option<T>, seq<Issue>> {
    match p
    case Success(x) => Success(Some(x))
    case Failure(e) => Failure(e)
  }

  function Floor(p: Result<real, seq<Issue>>): Result<int, seq<Issue>> {
    match p
    case Success(x) => Success(x.Floor)
    case Failure(e) => Failure(e)
  }

  function TitleField(m: map<string, Value>, mode: Mode): (r: Result<Option<string>, seq<Issue>>)
    ensures r.Success? <==> TitleAccepted(m, mode)
    ensures r.Success? ==> r.value == StrAt(m, "title")
    ensures r.Failure? ==> Blames(r.error, "title")
  {
    if "title" !in m then
      if mode == Partial then Success(None) else Missing("title", "string", TitleRequiredMessage)
    else if m["title"].Str? then Success(Some(m["title"].s))
    else Failure([Issue(Key("title"), InvalidType("string", TypeName(m["title"])), TitleTypeMessage)])
  }

  function YearField(m: map<string, Value>, mode: Mode): (r: Result<Option<int>, seq<Issue>>)
    ensures r.Success? <==> YearAccepted(m, mode)
    ensures r.Success? ==> r.value == IntAt(m, "year")
    ensures r.Failure? ==> Blames(r.error, "year")
  {
    if "year" !in m then
      if mode == Partial then Success(None) else Missing("year", "number", RequiredMessage)
    else Lift(Floor(ParseNumber("year", m["year"], YearChecks)))
  }

  function DurationField(m: map<string, Value>, mode: Mode): (r: Result<Option<int>, seq<Issue>>)
    ensures r.Success? <==> DurationAccepted(m, mode)
    ensures r.Success? ==> r.value == IntAt(m, "duration")
    ensures r.Failure? ==> Blames(r.error, "duration")
  {
    if "duration" !in m then
      if mode == Partial then Success(None) else Missing("duration", "number", RequiredMessage)
    else Lift(Floor(ParseNumber("duration", m["duration"], DurationChecks)))
  }

  /** `rate` is never required: in full mode the default applies, in partial
      mode the optional wrapper returns before the default is reached. */
  function RateField(m: map<string, Value>, mode: Mode): (r: Result<Option<real>, seq<Issue>>)
    ensures r.Success? <==> RateAccepted(m)
    ensures r.Success? ==> r.value == (if "rate" !in m && mode == Full then Some(DefaultRate) else NumAt(m, "rate"))
    ensures r.Failure? ==> Blames(r.error, "rate")
  {
    if "rate" !in m then
      if mode == Full then Success(Some(DefaultRate)) else Success(None)
    else Lift(ParseNumber("rate", m["rate"], RateChecks))
  }

  function PosterField(m: map<string, Value>, mode: Mode, isUrl: string -> bool): (r: Result<Option<string>, seq<Issue>>)
    ensures r.Success? <==> PosterAccepted(m, mode, isUrl)
    ensures r.Success? ==> r.value == StrAt(m, "poster")
    ensures r.Failure? ==> Blames(r.error, "poster")
  {
    if "poster" !in m then
      if mode == Partial then Success(None) else Missing("poster", "string", RequiredMessage)
    else
      var v := m["poster"];
      if !v.Str? then
        Failure([Issue(Key("poster"), InvalidType("string", TypeName(v)), "Expected string, received " + TypeName(v))])
      else if !isUrl(v.s) then
        Failure([Issue(Key("poster"), InvalidString("url"), PosterUrlMessage)])
      else Success(Some(v.s))
  }

  function GenreField(m: map<string, Value>, mode: Mode): (r: Result<Option<seq<string>>, seq<Issue>>)
    ensures r.Success? <==> GenreAccepted(m, mode)
    ensures r.Success? ==> r.value == StringsAt(m, "genre")
    ensures r.Failure? ==> Blames(r.error, "genre")
  {
    if "genre" !in m then
      if mode == Partial then Success(None) else Missing("genre", "array", GenreRequiredMessage)
    else
      var v := m["genre"];
      if !v.Arr? then
        Failure([Issue(Key("genre"), InvalidType("array", TypeName(v)), GenreTypeMessage)])
      else
        var problems := ElementIssues(v.items, 0);
        if problems == [] then Success(Some(Strings(v.items))) else Failure(problems)
  }

  /* ---------------------------------------------------------------------
     The two entry points
     --------------------------------------------------------------------- */

  /** `movieSchema.safeParse` (full mode) or `movieSchema.partial().safeParse`
      (partial mode). Fields are parsed in schema order and every problem of
      every field is reported; keys outside the schema are dropped. */
  function Validate(body: Value, mode: Mode, isUrl: string -> bool): (r: Result<MoviePatch, seq<Issue>>)
    ensures r.Success? <==> Acceptable(body, mode, isUrl)
    ensures r.Success? ==> Carries(body.fields, mode, r.value) && PatchOk(r.value, isUrl)
    ensures r.Failure? ==> |r.error| > 0
  {
    match body
    case Obj(m) =>
      var title, year, duration := TitleField(m, mode), YearField(m, mode), DurationField(m, mode);
      var rate, poster, genre := RateField(m, mode), PosterField(m, mode, isUrl), GenreField(m, mode);
      if title.Success? && year.Success? && duration.Success? && rate.Success? && poster.Success? && genre.Success? then
        Success(MoviePatch(title.value, year.value, duration.value, rate.value, poster.value, genre.value))
      else
        Failure(IssuesOf(title) + IssuesOf(year) + IssuesOf(duration)
                + IssuesOf(rate) + IssuesOf(poster) + IssuesOf(genre))
    case _ =>
      Failure([Issue(Root, InvalidType("object", TypeName(body)), "Expected object, received " + TypeName(body))])
  }

  /** `validateMovie`: full mode, with the data as a complete record. */
  function ValidateMovie(body: Value, isUrl: string -> bool): (r: Result<MovieData, seq<Issue>>)
    ensures r.Success? <==> Acceptable(body, Full, isUrl)
    ensures r.Success? ==> MovieOk(r.value, isUrl)
    ensures r.Success? ==> Carries(body.fields, Full, Complete(r.value))
    ensures r.Failure? ==> r.error == Validate(body, Full, isUrl).error
  {
    match Validate(body, Full, isUrl)
    case Success(p) =>
      Success(MovieData(p.title.value, p.year.value, p.duration.value, p.rate.value, p.poster.value, p.genre.value))
    case Failure(e) => Failure(e)
  }

  /** `validatePartialMovie`: partial mode. */
  function ValidatePartialMovie(body: Value, isUrl: string -> bool): (r: Result<MoviePatch, seq<Issue>>)
    ensures r.Success? <==> Acceptable(body, Partial, isUrl)
    ensures r.Success? ==> PatchOk(r.value, isUrl) && Carries(body.fields, Partial, r.value)
  {
    Validate(body, Partial, isUrl)
  }

  /** A full record seen as a patch that sets every field. */
  function Complete(d: MovieData): MoviePatch {
    MoviePatch(Some(d.title), Some(d.year), Some(d.duration), Some(d.rate), Some(d.poster), Some(d.genre))
  }

  /* ---------------------------------------------------------------------
     Properties of the validator
     --------------------------------------------------------------------- */

  lemma BlamedKeysConcat(a: seq<Issue>, b: seq<Issue>)
    ensures BlamedKeys(a + b) == BlamedKeys(a) + BlamedKeys(b)
  {
  }

  /** The problems of a field that blames only itself name exactly that field, or nothing when it is valid. */
  lemma BlamedKeysOfField<T>(p: Result<T, seq<Issue>>, key: string)
    requires p.Failure? ==> Blames(p.error, key)
    ensures BlamedKeys(IssuesOf(p)) == if p.Success? then {} else {key}
  {
    if p.Failure? {
      assert p.error[0] in p.error;
      forall k | k in BlamedKeys(p.error) ensures k == key {
        var i :| i in p.error && KeyOf(i.path) == k;
        var j :| 0 <= j < |p.error| && p.error[j] == i;
      }
    }
  }

  /** A failure on an object body names every field that breaks its
      constraint, and no other field. */
  lemma ValidateBlamesOffending(m: map<string, Value>, mode: Mode, isUrl: string -> bool)
    ensures Validate(Obj(m), mode, isUrl).Failure? ==>
      BlamedKeys(Validate(Obj(m), mode, isUrl).error) == Offending(m, mode, isUrl)
  {
    var title, year, duration := TitleField(m, mode), YearField(m, mode), DurationField(m, mode);
    var rate, poster, genre := RateField(m, mode), PosterField(m, mode, isUrl), GenreField(m, mode);
    BlamedKeysOfField(title, "title");
    BlamedKeysOfField(year, "year");
    BlamedKeysOfField(duration, "duration");
    BlamedKeysOfField(rate, "rate");
    BlamedKeysOfField(poster, "poster");
    BlamedKeysOfField(genre, "genre");
    BlamedKeysOfSix(IssuesOf(title), IssuesOf(year), IssuesOf(duration),
                    IssuesOf(rate), IssuesOf(poster), IssuesOf(genre));
  }

  /** The fields blamed by six concatenated lists are those blamed by each. */
  lemma BlamedKeysOfSix(t: seq<Issue>, y: seq<Issue>, d: seq<Issue>, r: seq<Issue>, p: seq<Issue>, g: seq<Issue>)
    ensures BlamedKeys(t + y + d + r + p + g)
         == BlamedKeys(t) + BlamedKeys(y) + BlamedKeys(d) + BlamedKeys(r) + BlamedKeys(p) + BlamedKeys(g)
  {
    BlamedKeysConcat(t, y);
    BlamedKeysConcat(t + y, d);
    BlamedKeysConcat(t + y + d, r);
    BlamedKeysConcat(t + y + d + r, p);
    BlamedKeysConcat(t + y + d + r + p, g);
  }

  /** Only schema fields are ever blamed when the body is an object. */
  lemma OffendingWithinSchema(m: map<string, Value>, mode: Mode, isUrl: string -> bool)
    ensures Offending(m, mode, isUrl) <= SchemaKeys
    ensures Offending(m, mode, isUrl) == {} <==> Acceptable(Obj(m), mode, isUrl)
  {
  }

  /** A missing `title` reports the schema's "required" message; a `title`
      that is not a string reports its "must be a string" message. */
  lemma TitleMessages(m: map<string, Value>, mode: Mode, isUrl: string -> bool)
    ensures mode == Full && "title" !in m ==>
      var r := Validate(Obj(m), mode, isUrl);
      r.Failure? && Issue(Key("title"), InvalidType("string", "undefined"), TitleRequiredMessage) in r.error
    ensures "title" in m && !m["title"].Str? ==>
      var r := Validate(Obj(m), mode, isUrl);
      r.Failure? && Issue(Key("title"), InvalidType("string", TypeName(m["title"])), TitleTypeMessage) in r.error
  {
  }

  /** Likewise for `genre`: missing, and present but not an array. */
  lemma GenreMessages(m: map<string, Value>, mode: Mode, isUrl: string -> bool)
    ensures mode == Full && "genre" !in m ==>
      var r := Validate(Obj(m), mode, isUrl);
      r.Failure? && Issue(Key("genre"), InvalidType("array", "undefined"), GenreRequiredMessage) in r.error
    ensures "genre" in m && !m["genre"].Arr? ==>
      var r := Validate(Obj(m), mode, isUrl);
      r.Failure? && Issue(Key("genre"), InvalidType("array", TypeName(m["genre"])), GenreTypeMessage) in r.error
  {
  }

  /** `rate` 0 is refused in both modes: `.positive()` is strict even though `.min(0)` is not. */
  lemma RateZeroRejected(m: map<string, Value>, mode: Mode, isUrl: string -> bool)
    requires "rate" in m && m["rate"] == Num(0.0)
    ensures Validate(Obj(m), mode, isUrl).Failure?
    ensures "rate" in Offending(m, mode, isUrl)
  {
  }

  /** An empty title, an empty genre list and a repeated genre are all accepted. */
  lemma NoEmptinessOrUniqueness(m: map<string, Value>, mode: Mode, isUrl: string -> bool)
    requires Acceptable(Obj(m), mode, isUrl)
    ensures Acceptable(Obj(m["title" := Str("")]), mode, isUrl)
    ensures Acceptable(Obj(m["genre" := Arr([])]), mode, isUrl)
    ensures Acceptable(Obj(m["genre" := Arr([Str("Drama"), Str("Drama")])]), mode, isUrl)
  {
  }

  /** In partial mode the empty object is accepted and yields no fields at all. */
  lemma PartialEmptyObject(isUrl: string -> bool)
    ensures ValidatePartialMovie(Obj(map[]), isUrl) == Success(MoviePatch(None, None, None, None, None, None))
  {
  }

  /** In partial mode a field left out stays out of the data: no default `rate`. */
  lemma PartialAddsNothing(body: Value, isUrl: string -> bool)
    requires ValidatePartialMovie(body, isUrl).Success?
    ensures PresentKeys(ValidatePartialMovie(body, isUrl).value) == body.fields.Keys * SchemaKeys
  {
  }

  /** In full mode the data carries all six schema keys and nothing else; in
      neither mode does it carry `id`. */
  lemma OutputKeys(body: Value, mode: Mode, isUrl: string -> bool)
    requires Validate(body, mode, isUrl).Success?
    ensures PresentKeys(Validate(body, mode, isUrl).value) <= SchemaKeys
    ensures mode == Full ==> PresentKeys(Validate(body, mode, isUrl).value) == SchemaKeys
    ensures "id" !in PresentKeys(Validate(body, mode, isUrl).value)
  {
  }

  /** Every body accepted in full mode is accepted in partial mode, with the
      same data except that a missing `rate` stays missing. */
  lemma FullImpliesPartial(body: Value, isUrl: string -> bool)
    requires ValidateMovie(body, isUrl).Success?
    ensures ValidatePartialMovie(body, isUrl).Success?
    ensures ValidatePartialMovie(body, isUrl).value
         == Complete(ValidateMovie(body, isUrl).value).(rate := NumAt(body.fields, "rate"))
  {
  }
}
