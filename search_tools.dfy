/** The tools the model may call and their registry (backend/search_tools.py).

    The vector store is a bundle of oracles (`Store`); the tools only read it.
    `CourseSearchTool` keeps the provenance of its last successful search in
    two fields the UI reads back; `CourseOutlineTool` renders a course outline;
    `ToolManager` is the name-keyed, insertion-ordered registry that dispatches
    calls and hands out the provenance. */
module SearchTools {
  import opened Common
  import opened Sorting

  // ---------------------------------------------------------------------------
  // What the vector store hands back

  /** The metadata of one retrieved chunk; `None` is a missing key. */
  datatype ChunkMeta = ChunkMeta(courseTitle: Option<string>, lessonNumber: Option<int>)

  datatype SearchResults = SearchResults(documents: seq<string>, metadata: seq<ChunkMeta>, error: Option<string>)
  {
    predicate IsEmpty() { |documents| == 0 }
  }

  /** One entry of a course's lesson list; `None` is a missing key. */
  datatype Lesson = Lesson(number: Option<int>, title: Option<string>)

  /** A catalog entry. `lessons` is the decoded `lessons_json`: `None` when it
      does not decode, `Some([])` when the key is missing (it defaults to "[]"). */
  datatype CourseRecord = CourseRecord(title: Option<string>, courseLink: Option<string>,
                                       lessons: Option<seq<Lesson>>)

  /** `course_catalog.get(ids=[...])`: the `metadatas` list (empty when the
      reply is empty or lacks it), or the message of the exception it raised. */
  datatype CatalogReply = Records(metadatas: seq<CourseRecord>) | CatalogRaised(detail: string)

  /** The vector store, as the tools see it. */
  datatype Store = Store(search: (ArgValue, ArgValue, ArgValue) -> SearchResults,
                         resolveCourseName: ArgValue -> Option<string>,
                         catalogGet: string -> CatalogReply,
                         lessonLink: (string, int) -> Option<string>,
                         courseLink: string -> Option<string>)

  const SearchDefinition: ToolDefinition :=
    ToolDefinition(Some("search_course_content"),
                   "Search course materials with smart course name matching and lesson filtering")

  const OutlineDefinition: ToolDefinition :=
    ToolDefinition(Some("get_course_outline"),
                   "Get a course outline including title, course link, and complete lesson list")

  // ---------------------------------------------------------------------------
  // The search tool

  const NoContentHead: string := "No relevant content found"

  /** The filter description of a search that found nothing: each filter is
      mentioned only when it is truthy. */
  function FilterInfo(courseName: ArgValue, lessonNumber: ArgValue): string
  {
    var withCourse := if ArgTruthy(courseName) then "" + " in course '" + ArgText(courseName) + "'" else "";
    if ArgTruthy(lessonNumber) then withCourse + " in lesson " + ArgText(lessonNumber) else withCourse
  }

  /** The reply to a search that found nothing. */
  function NoContentText(courseName: ArgValue, lessonNumber: ArgValue): string
  {
    NoContentHead + FilterInfo(courseName, lessonNumber) + "."
  }

  /** The four forms of the no-content reply; a lesson number of 0 and an
      empty course name are not mentioned. */
  lemma NoContentMessages(courseName: ArgValue, lessonNumber: ArgValue)
    ensures var s := NoContentText(courseName, lessonNumber);
      && (!ArgTruthy(courseName) && !ArgTruthy(lessonNumber) ==> s == NoContentHead + "" + ".")
      && (ArgTruthy(courseName) && !ArgTruthy(lessonNumber) ==>
            s == NoContentHead + (" in course '" + ArgText(courseName) + "'") + ".")
      && (!ArgTruthy(courseName) && ArgTruthy(lessonNumber) ==>
            s == NoContentHead + (" in lesson " + ArgText(lessonNumber)) + ".")
      && (ArgTruthy(courseName) && ArgTruthy(lessonNumber) ==>
            s == NoContentHead + (" in course '" + ArgText(courseName) + "'" + " in lesson " + ArgText(lessonNumber)) + ".")
  {
    var course := " in course '" + ArgText(courseName) + "'";
    if ArgTruthy(courseName) {
      assert "" + " in course '" + ArgText(courseName) + "'" == course;
    } else if ArgTruthy(lessonNumber) {
      assert "" + " in lesson " + ArgText(lessonNumber) == " in lesson " + ArgText(lessonNumber);
    }
  }

  /** The number of (document, metadata) pairs `zip` yields. */
  function Pairs(r: SearchResults): (n: nat)
    ensures n <= |r.documents| && n <= |r.metadata|
    ensures n == |r.documents| || n == |r.metadata|
  {
    if |r.documents| <= |r.metadata| then |r.documents| else |r.metadata|
  }

  /** The course title of a chunk, "unknown" when missing. */
  function CourseTitle(meta: ChunkMeta): string
  {
    meta.courseTitle.GetOr("unknown")
  }

  /** The source label of a chunk: its course title, and its lesson when known. */
  function Label(meta: ChunkMeta): string
  {
    if meta.lessonNumber.Some? then CourseTitle(meta) + " - Lesson " + IntToString(meta.lessonNumber.value)
    else CourseTitle(meta)
  }

  /** The context header of a formatted entry. */
  function Header(meta: ChunkMeta): string
  {
    if meta.lessonNumber.Some? then "[" + CourseTitle(meta) + " - Lesson " + IntToString(meta.lessonNumber.value) + "]"
    else "[" + CourseTitle(meta) + "]"
  }

  /** The header of an entry shows exactly the source label recorded for it. */
  lemma HeaderShowsLabel(meta: ChunkMeta)
    ensures Header(meta) == "[" + Label(meta) + "]"
  {
  }

  /** The link recorded for a chunk: the lesson's link when the lesson is known,
      else the course's link unless the title is the "unknown" default, else none. */
  function LinkFor(store: Store, meta: ChunkMeta): Option<string>
  {
    if meta.lessonNumber.Some? then store.lessonLink(CourseTitle(meta), meta.lessonNumber.value)
    else if CourseTitle(meta) != "unknown" then store.courseLink(CourseTitle(meta))
    else None
  }

  /** A formatted entry: the header of the chunk, then its text. */
  function FormattedEntry(doc: string, meta: ChunkMeta): string
  {
    Header(meta) + "\n" + doc
  }

  /** The formatted entries of the first `n` pairs. */
  function EntriesUpTo(r: SearchResults, n: nat): (es: seq<string>)
    requires n <= Pairs(r)
    ensures |es| == n
  {
    if n == 0 then [] else EntriesUpTo(r, n - 1) + [FormattedEntry(r.documents[n - 1], r.metadata[n - 1])]
  }

  /** The source labels of the first `n` pairs. */
  function LabelsUpTo(r: SearchResults, n: nat): (ls: seq<string>)
    requires n <= Pairs(r)
    ensures |ls| == n
  {
    if n == 0 then [] else LabelsUpTo(r, n - 1) + [Label(r.metadata[n - 1])]
  }

  /** The source links of the first `n` pairs. */
  function LinksUpTo(store: Store, r: SearchResults, n: nat): (ls: seq<Option<string>>)
    requires n <= Pairs(r)
    ensures |ls| == n
  {
    if n == 0 then [] else LinksUpTo(store, r, n - 1) + [LinkFor(store, r.metadata[n - 1])]
  }

  /** Label and link `j` of a prefix both describe pair `j`. */
  lemma {:induction false} ProvenanceUpToAt(store: Store, r: SearchResults, n: nat, j: nat)
    requires j < n <= Pairs(r)
    ensures LabelsUpTo(r, n)[j] == Label(r.metadata[j])
    ensures LinksUpTo(store, r, n)[j] == LinkFor(store, r.metadata[j])
    decreases n
  {
    ElementOfAppend(LabelsUpTo(r, n - 1), Label(r.metadata[n - 1]), j);
    ElementOfAppend(LinksUpTo(store, r, n - 1), LinkFor(store, r.metadata[n - 1]), j);
    if j < n - 1 {
      ProvenanceUpToAt(store, r, n - 1, j);
    }
  }

  /** The formatted entries, one per pair. */
  function Entries(r: SearchResults): seq<string>
  {
    EntriesUpTo(r, Pairs(r))
  }

  /** `sources` and `links` record `r`: one label and one link per pair, in order. */
  ghost predicate Recorded(store: Store, r: SearchResults, sources: seq<string>, links: seq<Option<string>>)
  {
    && |sources| == Pairs(r) && |links| == Pairs(r)
    && (forall i :: 0 <= i < Pairs(r) ==> sources[i] == Label(r.metadata[i]))
    && (forall i :: 0 <= i < Pairs(r) ==> links[i] == LinkFor(store, r.metadata[i]))
  }

  /** Whether a search reaches `_format_results`. */
  predicate Formats(r: SearchResults)
  {
    !Truthy(r.error) && !r.IsEmpty()
  }

  /** What a search tool call returns for the store's reply `r`. */
  function SearchText(r: SearchResults, courseName: ArgValue, lessonNumber: ArgValue): (s: string)
    ensures Truthy(r.error) ==> s == r.error.value
    ensures !Truthy(r.error) && r.IsEmpty() ==> s == NoContentText(courseName, lessonNumber)
    ensures Formats(r) ==> s == Join("\n\n", Entries(r))
  {
    if Truthy(r.error) then r.error.value
    else if r.IsEmpty() then NoContentText(courseName, lessonNumber)
    else Join("\n\n", Entries(r))
  }

  class CourseSearchTool {
    const store: Store
    var lastSources: seq<string>
    var lastSourceLinks: seq<Option<string>>

    /** The two provenance lists are in step. */
    ghost predicate Valid()
      reads this
    {
      |lastSources| == |lastSourceLinks|
    }

    constructor (store: Store)
      ensures this.store == store && lastSources == [] && lastSourceLinks == []
      ensures Valid()
    {
      this.store := store;
      lastSources := [];
      lastSourceLinks := [];
    }

    /** `execute`: a truthy store error is returned as it is, an empty result
        becomes the no-content message, and only a formatted result replaces
        the provenance. */
    method Execute(query: ArgValue, courseName: ArgValue, lessonNumber: ArgValue) returns (text: string)
      modifies this
      ensures var r := store.search(query, courseName, lessonNumber);
        && text == SearchText(r, courseName, lessonNumber)
        && (Formats(r) ==> Recorded(store, r, lastSources, lastSourceLinks))
        && (!Formats(r) ==> lastSources == old(lastSources) && lastSourceLinks == old(lastSourceLinks))
      ensures old(Valid()) ==> Valid()
    {
      var results := store.search(query, courseName, lessonNumber);
      if Truthy(results.error) {
        return results.error.value;
      }
      if results.IsEmpty() {
        var filterInfo := "";
        if ArgTruthy(courseName) {
          filterInfo := filterInfo + " in course '" + ArgText(courseName) + "'";
        }
        if ArgTruthy(lessonNumber) {
          filterInfo := filterInfo + " in lesson " + ArgText(lessonNumber);
        }
        assert filterInfo == FilterInfo(courseName, lessonNumber);
        return NoContentHead + filterInfo + ".";
      }
      text := FormatResults(results);
    }

    method FormatResults(results: SearchResults) returns (text: string)
      modifies this
      ensures Recorded(store, results, lastSources, lastSourceLinks)
      ensures text == Join("\n\n", Entries(results))
      ensures Valid()
    {
      var formatted: seq<string> := [];
      var sources: seq<string> := [];
      var sourceLinks: seq<Option<string>> := [];
      var n := if |results.documents| <= |results.metadata| then |results.documents| else |results.metadata|;
      for i := 0 to n
        invariant formatted == EntriesUpTo(results, i)
        invariant sources == LabelsUpTo(results, i)
        invariant sourceLinks == LinksUpTo(store, results, i)
      {
        var doc := results.documents[i];
        var meta := results.metadata[i];
        var courseTitle := meta.courseTitle.GetOr("unknown");
        var lessonNum := meta.lessonNumber;

        var header := "[" + courseTitle;
        if lessonNum.Some? {
          header := header + " - Lesson " + IntToString(lessonNum.value);
        }
        header := header + "]";
        assert header == Header(meta);

        var source := courseTitle;
        if lessonNum.Some? {
          source := source + " - Lesson " + IntToString(lessonNum.value);
        }
        assert source == Label(meta);
        sources := sources + [source];

        var link: Option<string> := None;
        if lessonNum.Some? {
          link := store.lessonLink(courseTitle, lessonNum.value);
        } else if courseTitle != "unknown" {
          link := store.courseLink(courseTitle);
        }
        sourceLinks := sourceLinks + [link];

        assert header + "\n" + doc == FormattedEntry(doc, meta);
        formatted := formatted + [header + "\n" + doc];
      }
      forall j | 0 <= j < n
        ensures sources[j] == Label(results.metadata[j])
        ensures sourceLinks[j] == LinkFor(store, results.metadata[j])
      {
        ProvenanceUpToAt(store, results, n, j);
      }
      lastSources := sources;
      lastSourceLinks := sourceLinks;
      text := Join("\n\n", formatted);
    }
  }

  // ---------------------------------------------------------------------------
  // The outline tool

  /** The sort key of a lesson: its number, 0 when missing. */
  function LessonKey(l: Lesson): int
  {
    l.number.GetOr(0)
  }

  /** The outline line of a lesson, with "Unknown" and "Untitled" for missing fields. */
  function LessonLine(l: Lesson): string
  {
    (if l.number.Some? then IntToString(l.number.value) else "Unknown") + ". " + l.title.GetOr("Untitled")
  }

  /** The lessons of a record; an undecodable list counts as empty. */
  function DecodedLessons(m: CourseRecord): seq<Lesson>
  {
    m.lessons.GetOr([])
  }

  /** The lesson list in outline order. */
  function OrderedLessons(m: CourseRecord): seq<Lesson>
  {
    SortByKey(DecodedLessons(m), LessonKey)
  }

  function CourseLinkLine(m: CourseRecord): string
  {
    if Truthy(m.courseLink) then "Course Link: " + m.courseLink.value else "Course Link: Not available"
  }

  /** The outline lines of the first `n` lessons of `ls`. */
  function LessonLinesUpTo(ls: seq<Lesson>, n: nat): (lines: seq<string>)
    requires n <= |ls|
    ensures |lines| == n
  {
    if n == 0 then [] else LessonLinesUpTo(ls, n - 1) + [LessonLine(ls[n - 1])]
  }

  /** Line `j` of a prefix is the line of lesson `j`. */
  lemma {:induction false} LessonLinesUpToAt(ls: seq<Lesson>, n: nat, j: nat)
    requires j < n <= |ls|
    ensures LessonLinesUpTo(ls, n)[j] == LessonLine(ls[j])
    decreases n
  {
    ElementOfAppend(LessonLinesUpTo(ls, n - 1), LessonLine(ls[n - 1]), j);
    if j < n - 1 {
      LessonLinesUpToAt(ls, n - 1, j);
    }
  }

  /** The lines of a rendered outline. */
  function OutlineParts(m: CourseRecord): seq<string>
  {
    var head := ["**" + m.title.GetOr("Unknown Course") + "**"] + [CourseLinkLine(m)];
    if DecodedLessons(m) == [] then head + ["\nNo lessons found for this course."]
    else
      var ordered := OrderedLessons(m);
      head + ["\n**Lessons:**"] + LessonLinesUpTo(ordered, |ordered|)
  }

  /** What an outline tool call returns. */
  function OutlineText(store: Store, courseTitle: ArgValue): (s: string)
    ensures !Truthy(store.resolveCourseName(courseTitle)) ==>
              s == "No course found matching '" + ArgText(courseTitle) + "'"
    ensures Truthy(store.resolveCourseName(courseTitle)) ==>
              var resolved := store.resolveCourseName(courseTitle).value;
              match store.catalogGet(resolved)
              case CatalogRaised(detail) => s == "Error retrieving course outline: " + detail
              case Records(ms) =>
                && (ms == [] ==> s == "Course metadata not found for '" + resolved + "'")
                && (ms != [] ==> s == Join("\n", OutlineParts(ms[0])))
  {
    var resolved := store.resolveCourseName(courseTitle);
    if !Truthy(resolved) then "No course found matching '" + ArgText(courseTitle) + "'"
    else match store.catalogGet(resolved.value)
      case CatalogRaised(detail) => "Error retrieving course outline: " + detail
      case Records(ms) =>
        if ms == [] then "Course metadata not found for '" + resolved.value + "'"
        else Join("\n", OutlineParts(ms[0]))
  }

  /** A rendered outline starts with the title line (defaulting to "Unknown
      Course") and the link line, then either the no-lessons line alone, or the
      lessons heading and one line per lesson in outline order. */
  lemma OutlineShape(m: CourseRecord)
    ensures var parts := OutlineParts(m); var lessons := DecodedLessons(m); var ordered := OrderedLessons(m);
      && parts[0] == "**" + m.title.GetOr("Unknown Course") + "**"
      && parts[1] == (if Truthy(m.courseLink) then "Course Link: " + m.courseLink.value else "Course Link: Not available")
      && (lessons == [] ==> |parts| == 3 && parts[2] == "\nNo lessons found for this course.")
      && (lessons != [] ==>
            && |parts| == 3 + |lessons|
            && parts[2] == "\n**Lessons:**"
            && (forall i :: 0 <= i < |lessons| ==> parts[3 + i] == LessonLine(ordered[i])))
  {
    var lessons := DecodedLessons(m);
    if lessons != [] {
      var ordered := OrderedLessons(m);
      SortIsSortedPermutation(lessons, LessonKey);
      forall i | 0 <= i < |lessons| ensures OutlineParts(m)[3 + i] == LessonLine(ordered[i]) {
        LessonLinesUpToAt(ordered, |ordered|, i);
      }
    }
  }

  /** The lessons of an outline appear in ascending order of number (missing
      numbers as 0), each exactly as often as in the record, and lessons with
      equal numbers in their record order. */
  lemma OutlineOrder(m: CourseRecord)
    ensures var lessons := DecodedLessons(m); var ordered := OrderedLessons(m);
      && (forall i, j :: 0 <= i < j < |ordered| ==> LessonKey(ordered[i]) <= LessonKey(ordered[j]))
      && multiset(ordered) == multiset(lessons)
      && (forall v :: WithKey(ordered, LessonKey, v) == WithKey(lessons, LessonKey, v))
  {
    var lessons := DecodedLessons(m);
    SortIsSortedPermutation(lessons, LessonKey);
    forall v ensures WithKey(OrderedLessons(m), LessonKey, v) == WithKey(lessons, LessonKey, v) {
      SortIsStable(lessons, LessonKey, v);
    }
  }

  class CourseOutlineTool {
    const store: Store

    constructor (store: Store)
      ensures this.store == store
    {
      this.store := store;
    }

    /** `execute`: resolve the title, fetch its catalog entry and render it;
        every failure becomes a message. */
    method Execute(courseTitle: ArgValue) returns (text: string)
      ensures text == OutlineText(store, courseTitle)
    {
      var resolvedTitle := store.resolveCourseName(courseTitle);
      if !Truthy(resolvedTitle) {
        return "No course found matching '" + ArgText(courseTitle) + "'";
      }
      var results := store.catalogGet(resolvedTitle.value);
      match results {
        case CatalogRaised(detail) =>
          text := "Error retrieving course outline: " + detail;
        case Records(metadatas) =>
          if |metadatas| == 0 {
            return "Course metadata not found for '" + resolvedTitle.value + "'";
          }
          var metadata := metadatas[0];
          var title := metadata.title.GetOr("Unknown Course");
          var lessons := metadata.lessons.GetOr([]);
          var outlineParts := ["**" + title + "**"];
          if Truthy(metadata.courseLink) {
            outlineParts := outlineParts + ["Course Link: " + metadata.courseLink.value];
          } else {
            outlineParts := outlineParts + ["Course Link: Not available"];
          }
          if |lessons| > 0 {
            outlineParts := outlineParts + ["\n**Lessons:**"];
            var ordered := SortByKey(lessons, LessonKey);
            ghost var head := outlineParts;
            for i := 0 to |ordered|
              invariant outlineParts == head + LessonLinesUpTo(ordered, i)
            {
              var lesson := ordered[i];
              var lessonNum := if lesson.number.Some? then IntToString(lesson.number.value) else "Unknown";
              var lessonTitle := lesson.title.GetOr("Untitled");
              outlineParts := outlineParts + [lessonNum + ". " + lessonTitle];
            }
            assert outlineParts == OutlineParts(metadata);
          } else {
            outlineParts := outlineParts + ["\nNo lessons found for this course."];
            assert outlineParts == OutlineParts(metadata);
          }
          text := Join("\n", outlineParts);
      }
    }
  }

  // ---------------------------------------------------------------------------
  // The registry

  /** A registered tool: one of the two course tools, or another implementation
      given by its definition and its behaviour. */
  datatype Tool = Search(search: CourseSearchTool)
                | Outline(outline: CourseOutlineTool)
                | Plugin(definition: ToolDefinition, run: Args -> ToolOutcome)

  /** `get_tool_definition`. */
  function Definition(t: Tool): ToolDefinition
  {
    match t
    case Search(_) => SearchDefinition
    case Outline(_) => OutlineDefinition
    case Plugin(d, _) => d
  }

  /** Binding keyword arguments to a tool's parameters. */
  datatype Binding<T> = Bound(value: T) | Unbound(detail: string)

  datatype SearchArgs = SearchArgs(query: ArgValue, courseName: ArgValue, lessonNumber: ArgValue)

  const SearchUnexpectedArgument: string := "CourseSearchTool.execute() got an unexpected keyword argument"
  const SearchMissingQuery: string := "CourseSearchTool.execute() missing 1 required positional argument: 'query'"
  const OutlineUnexpectedArgument: string := "CourseOutlineTool.execute() got an unexpected keyword argument"
  const OutlineMissingTitle: string := "CourseOutlineTool.execute() missing 1 required positional argument: 'course_title'"

  /** `CourseSearchTool.execute(**kwargs)`: no keys beyond its parameters,
      `query` required, the filters defaulting to `None`. */
  function BindSearch(args: Args): (b: Binding<SearchArgs>)
    ensures b.Bound? <==> args.Keys <= {"query", "course_name", "lesson_number"} && "query" in args
    ensures b.Bound? ==>
              b.value == SearchArgs(args["query"],
                                    if "course_name" in args then args["course_name"] else Null,
                                    if "lesson_number" in args then args["lesson_number"] else Null)
    ensures !(args.Keys <= {"query", "course_name", "lesson_number"}) ==> b == Unbound(SearchUnexpectedArgument)
    ensures args.Keys <= {"query", "course_name", "lesson_number"} && "query" !in args ==> b == Unbound(SearchMissingQuery)
  {
    if !(args.Keys <= {"query", "course_name", "lesson_number"}) then
      Unbound(SearchUnexpectedArgument)
    else if "query" !in args then
      Unbound(SearchMissingQuery)
    else
      Bound(SearchArgs(args["query"],
                       if "course_name" in args then args["course_name"] else Null,
                       if "lesson_number" in args then args["lesson_number"] else Null))
  }

  /** `CourseOutlineTool.execute(**kwargs)`: exactly `course_title`. */
  function BindOutline(args: Args): (b: Binding<ArgValue>)
    ensures b.Bound? <==> args.Keys == {"course_title"}
    ensures b.Bound? ==> b.value == args["course_title"]
    ensures !(args.Keys <= {"course_title"}) ==> b == Unbound(OutlineUnexpectedArgument)
    ensures args.Keys <= {"course_title"} && "course_title" !in args ==> b == Unbound(OutlineMissingTitle)
  {
    if !(args.Keys <= {"course_title"}) then
      Unbound(OutlineUnexpectedArgument)
    else if "course_title" !in args then
      Unbound(OutlineMissingTitle)
    else
      Bound(args["course_title"])
  }

  /** An entry of the `tools` dictionary. */
  datatype Entry = Entry(name: string, tool: Tool)

  function Names(es: seq<Entry>): (names: seq<string>)
    ensures |names| == |es| && forall i :: 0 <= i < |es| ==> names[i] == es[i].name
  {
    seq(|es|, i requires 0 <= i < |es| => es[i].name)
  }

  /** Dictionary keys are unique. */
  ghost predicate Distinct(es: seq<Entry>)
  {
    forall i, j :: 0 <= i < j < |es| ==> es[i].name != es[j].name
  }

  /** The position of `name` in the dictionary, if it is a key. */
  function Find(es: seq<Entry>, name: string): (r: Option<nat>)
    ensures r.Some? ==> r.value < |es| && es[r.value].name == name
    ensures r.Some? ==> forall j :: 0 <= j < r.value ==> es[j].name != name
    ensures r.None? <==> forall j :: 0 <= j < |es| ==> es[j].name != name
    decreases |es|
  {
    if es == [] then None
    else if es[0].name == name then Some(0)
    else match Find(es[1..], name)
      case None => None
      case Some(i) => Some(i + 1)
  }

  /** `tools.get(name)`. */
  function Lookup(es: seq<Entry>, name: string): Option<Tool>
  {
    match Find(es, name)
    case None => None
    case Some(i) => Some(es[i].tool)
  }

  /** `tools[name] = tool`: an existing key keeps its position and gets the new
      tool; a new key goes last. */
  function Put(es: seq<Entry>, name: string, tool: Tool): seq<Entry>
  {
    match Find(es, name)
    case Some(i) => es[i := Entry(name, tool)]
    case None => es + [Entry(name, tool)]
  }

  /** Assignment keeps the keys unique, maps `name` to the new tool, leaves
      every other key's tool as it was, and changes the key order only by
      appending a new key. */
  lemma PutShape(es: seq<Entry>, name: string, tool: Tool)
    requires Distinct(es)
    ensures var after := Put(es, name, tool);
      && Distinct(after)
      && Lookup(after, name) == Some(tool)
      && (forall n :: n != name ==> Lookup(after, n) == Lookup(es, n))
      && Names(after) == (if name in Names(es) then Names(es) else Names(es) + [name])
  {
    var after := Put(es, name, tool);
    if Find(es, name).None? {
      assert after[|es|].name == name;
    }
    forall n | n != name ensures Lookup(after, n) == Lookup(es, n) {
      var f := Find(es, n);
      var g := Find(after, n);
      if f.Some? {
        assert after[f.value].name == n;
        assert g.Some? && g.value == f.value;
      } else {
        assert g.None?;
      }
    }
    if name in Names(es) {
      assert Names(after) == Names(es);
    } else {
      assert Names(after) == Names(es) + [name];
    }
  }

  /** The search tools among the entries: the objects whose provenance the
      registry reads and clears. */
  ghost function TrackersOf(es: seq<Entry>): set<CourseSearchTool>
  {
    set e | e in es && e.tool.Search? :: e.tool.search
  }

  /** Whether entry `i` is a search tool with a non-empty source list. */
  ghost predicate HasSources(es: seq<Entry>, i: int)
    requires 0 <= i < |es|
    reads TrackersOf(es)
  {
    es[i].tool.Search? && es[i].tool.search.lastSources != []
  }

  ghost predicate HasSourceLinks(es: seq<Entry>, i: int)
    requires 0 <= i < |es|
    reads TrackersOf(es)
  {
    es[i].tool.Search? && es[i].tool.search.lastSourceLinks != []
  }

  /** The scan of `get_last_sources`: the first non-empty source list, in
      registration order, or none. */
  function FirstSources(es: seq<Entry>): (r: seq<string>)
    reads TrackersOf(es)
    ensures r == [] <==> forall i :: 0 <= i < |es| ==> !HasSources(es, i)
    ensures forall i :: 0 <= i < |es| && HasSources(es, i) && (forall j :: 0 <= j < i ==> !HasSources(es, j)) ==>
              r == es[i].tool.search.lastSources
    decreases |es|
  {
    if es == [] then []
    else if es[0].tool.Search? && es[0].tool.search.lastSources != [] then
      assert HasSources(es, 0);
      es[0].tool.search.lastSources
    else
      assert forall i :: 0 <= i < |es| - 1 ==> (HasSources(es[1..], i) <==> HasSources(es, i + 1));
      FirstSources(es[1..])
  }

  /** The scan of `get_last_source_links`. */
  function FirstSourceLinks(es: seq<Entry>): (r: seq<Option<string>>)
    reads TrackersOf(es)
    ensures r == [] <==> forall i :: 0 <= i < |es| ==> !HasSourceLinks(es, i)
    ensures forall i :: 0 <= i < |es| && HasSourceLinks(es, i) && (forall j :: 0 <= j < i ==> !HasSourceLinks(es, j)) ==>
              r == es[i].tool.search.lastSourceLinks
    decreases |es|
  {
    if es == [] then []
    else if es[0].tool.Search? && es[0].tool.search.lastSourceLinks != [] then
      assert HasSourceLinks(es, 0);
      es[0].tool.search.lastSourceLinks
    else
      assert forall i :: 0 <= i < |es| - 1 ==> (HasSourceLinks(es[1..], i) <==> HasSourceLinks(es, i + 1));
      FirstSourceLinks(es[1..])
  }

  /** When every search tool keeps its two lists in step, the two scans stop at
      the same tool, so the sources and links handed out are in step too. */
  lemma {:induction false} ScansAgree(es: seq<Entry>)
    requires forall t :: t in TrackersOf(es) ==> t.Valid()
    ensures |FirstSources(es)| == |FirstSourceLinks(es)|
    ensures FirstSources(es) == [] <==> FirstSourceLinks(es) == []
    decreases |es|
  {
    if es != [] {
      if es[0].tool.Search? {
        assert es[0] in es;
        assert es[0].tool.search in TrackersOf(es);
        assert es[0].tool.search.Valid();
      }
      if !(es[0].tool.Search? && es[0].tool.search.lastSources != []) {
        assert TrackersOf(es[1..]) <= TrackersOf(es) by {
          forall e | e in es[1..] ensures e in es { }
        }
        ScansAgree(es[1..]);
      }
    }
  }

  class ToolManager {
    /** The `tools` dictionary, in insertion order. */
    var entries: seq<Entry>

    /** Keys are unique, and each tool is registered under its own name. */
    ghost predicate Valid()
      reads this
    {
      && Distinct(entries)
      && forall i :: 0 <= i < |entries| ==> Definition(entries[i].tool).name == Some(entries[i].name)
    }

    constructor ()
      ensures entries == [] && Valid()
    {
      entries := [];
    }

    ghost function Trackers(): set<CourseSearchTool>
      reads this
    {
      TrackersOf(entries)
    }

    /** `register_tool`: a definition without a truthy name raises; otherwise
        the tool is stored under that name, replacing any tool already there. */
    method RegisterTool(tool: Tool) returns (raised: Option<string>)
      requires Valid()
      modifies this
      ensures Valid()
      ensures !Truthy(Definition(tool).name) ==>
                raised == Some("Tool must have a 'name' in its definition") && entries == old(entries)
      ensures Truthy(Definition(tool).name) ==>
                raised == None && entries == Put(old(entries), Definition(tool).name.value, tool)
    {
      var toolDef := Definition(tool);
      var toolName := toolDef.name;
      if !Truthy(toolName) {
        return Some("Tool must have a 'name' in its definition");
      }
      PutShape(entries, toolName.value, tool);
      var before := entries;
      match Find(entries, toolName.value) {
        case Some(i) => entries := entries[i := Entry(toolName.value, tool)];
        case None => entries := entries + [Entry(toolName.value, tool)];
      }
      forall i | 0 <= i < |entries|
        ensures Definition(entries[i].tool).name == Some(entries[i].name)
      {
        if i < |before| && entries[i] != Entry(toolName.value, tool) {
          assert entries[i] == before[i];
        }
      }
      raised := None;
    }

    /** `get_tool_definitions`: one definition per registered name, in
        registration order, each carrying that name. */
    function GetToolDefinitions(): (defs: seq<ToolDefinition>)
      requires Valid()
      reads this
      ensures |defs| == |entries|
      ensures forall i :: 0 <= i < |defs| ==> defs[i] == Definition(entries[i].tool)
      ensures forall i :: 0 <= i < |defs| ==> defs[i].name == Some(entries[i].name)
      ensures forall i, j :: 0 <= i < j < |defs| ==> defs[i].name != defs[j].name
    {
      var es := entries;
      seq(|es|, i requires 0 <= i < |es| => Definition(es[i].tool))
    }

    /** `execute_tool`: an unknown name gives the not-found text and runs
        nothing; otherwise the tool runs with the arguments, and whatever it
        raises (including a binding failure) propagates. Only the search tool
        that ran may change. */
    method ExecuteTool(name: string, args: Args) returns (outcome: ToolOutcome)
      modifies Trackers()
      ensures Lookup(entries, name).None? ==>
                outcome == Done("Tool '" + name + "' not found") && unchanged(Trackers())
      ensures Lookup(entries, name).Some? && Lookup(entries, name).value.Plugin? ==>
                outcome == Lookup(entries, name).value.run(args) && unchanged(Trackers())
      ensures Lookup(entries, name).Some? && Lookup(entries, name).value.Outline? ==>
                var o := Lookup(entries, name).value.outline;
                && (BindOutline(args).Unbound? ==> outcome == Raise(BindOutline(args).detail))
                && (BindOutline(args).Bound? ==> outcome == Done(OutlineText(o.store, BindOutline(args).value)))
                && unchanged(Trackers())
      ensures Lookup(entries, name).Some? && Lookup(entries, name).value.Search? ==>
                var s := Lookup(entries, name).value.search;
                && s in old(Trackers())
                && unchanged(old(Trackers()) - {s})
                && (BindSearch(args).Unbound? ==> outcome == Raise(BindSearch(args).detail) && unchanged(s))
                && (BindSearch(args).Bound? ==>
                      var a := BindSearch(args).value;
                      var r := s.store.search(a.query, a.courseName, a.lessonNumber);
                      && outcome == Done(SearchText(r, a.courseName, a.lessonNumber))
                      && (Formats(r) ==> Recorded(s.store, r, s.lastSources, s.lastSourceLinks))
                      && (!Formats(r) ==> s.lastSources == old(s.lastSources) && s.lastSourceLinks == old(s.lastSourceLinks)))
      ensures forall t :: t in old(Trackers()) && old(t.Valid()) ==> t.Valid()
    {
      var found := Find(entries, name);
      if found.None? {
        return Done("Tool '" + name + "' not found");
      }
      assert entries[found.value] in entries;
      match entries[found.value].tool {
        case Plugin(_, run) =>
          outcome := run(args);
        case Outline(o) =>
          match BindOutline(args) {
            case Unbound(detail) => outcome := Raise(detail);
            case Bound(courseTitle) =>
              var text := o.Execute(courseTitle);
              outcome := Done(text);
          }
        case Search(s) =>
          match BindSearch(args) {
            case Unbound(detail) => outcome := Raise(detail);
            case Bound(a) =>
              var text := s.Execute(a.query, a.courseName, a.lessonNumber);
              outcome := Done(text);
          }
      }
    }

    /** `get_last_sources`: the sources of the first search tool, in
        registration order, that has any; [] when none has. */
    function GetLastSources(): (sources: seq<string>)
      reads this, Trackers()
      ensures sources == [] <==> forall i :: 0 <= i < |entries| ==> !HasSources(entries, i)
      ensures forall i :: 0 <= i < |entries| && HasSources(entries, i) && (forall j :: 0 <= j < i ==> !HasSources(entries, j)) ==>
                sources == entries[i].tool.search.lastSources
    {
      FirstSources(entries)
    }

    /** `get_last_source_links`: the same scan over the link lists. */
    function GetLastSourceLinks(): (links: seq<Option<string>>)
      reads this, Trackers()
      ensures links == [] <==> forall i :: 0 <= i < |entries| ==> !HasSourceLinks(entries, i)
      ensures forall i :: 0 <= i < |entries| && HasSourceLinks(entries, i) && (forall j :: 0 <= j < i ==> !HasSourceLinks(entries, j)) ==>
                links == entries[i].tool.search.lastSourceLinks
    {
      FirstSourceLinks(entries)
    }

    /** `reset_sources`: clears both provenance lists of every search tool, so
        that both lookups then find nothing. The registry itself is unchanged. */
    method ResetSources()
      modifies Trackers()
      ensures forall t :: t in Trackers() ==> t.lastSources == [] && t.lastSourceLinks == []
      ensures forall t :: t in Trackers() ==> t.Valid()
      ensures GetLastSources() == [] && GetLastSourceLinks() == []
    {
      for i := 0 to |entries|
        invariant forall j :: 0 <= j < i && entries[j].tool.Search? ==>
                    entries[j].tool.search.lastSources == [] && entries[j].tool.search.lastSourceLinks == []
      {
        assert entries[i] in entries;
        match entries[i].tool {
          case Search(s) =>
            s.lastSources := [];
            s.lastSourceLinks := [];
          case Outline(_) =>
          case Plugin(_, _) =>
        }
      }
      forall t | t in Trackers() ensures t.lastSources == [] && t.lastSourceLinks == [] {
        var e :| e in entries && e.tool.Search? && e.tool.search == t;
        var j :| 0 <= j < |entries| && entries[j] == e;
      }
    }
  }
}
