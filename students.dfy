/** The students slice of the Redux store: the roster, the search box and its results, and the
    student whose profile is open. */
module Students {
  import opened Records
  import JsString

  /** The mock-data queries the reducers call. Their matching rules live outside this model, so
      they are parameters: any functions of these types. */
  datatype StudentQueries = StudentQueries(
    searchStudents: string -> seq<Student>,
    getStudentById: StudentId -> Option<Student>)

  datatype StudentState = StudentState(
    students: seq<Student>,
    selectedStudent: Option<Student>,
    searchResults: seq<Student>,
    searchQuery: string,
    loading: bool,
    error: Option<string>)

  /** The slice's `initialState`, over the mock roster: nothing selected, and its empty query and
      results are consistent whatever the search does. */
  function InitialState(mockStudents: seq<Student>): (r: StudentState)
    ensures r.students == mockStudents && r.selectedStudent == None
    ensures forall q: StudentQueries :: SearchConsistent(q, r)
  {
    assert JsString.IsBlank("");
    StudentState(students := mockStudents, selectedStudent := None, searchResults := [],
                 searchQuery := "", loading := false, error := None)
  }

  datatype StudentAction =
    | SetStudents(students: seq<Student>)
    | SetSelectedStudent(student: Option<Student>)
    | SetSearchQuery(query: string)
    | ClearSearch
    | LoadStudentById(id: StudentId)

  /** The results `setSearchQuery` stores for `query`: nothing for a blank query, otherwise the
      search over the query exactly as typed (untrimmed). */
  function SearchResultsFor(q: StudentQueries, query: string): (r: seq<Student>)
    ensures JsString.IsBlank(query) ==> r == []
    ensures !JsString.IsBlank(query) ==> r == q.searchStudents(query)
  {
    JsString.TrimEmptyIffBlank(query);
    if JsString.Trim(query) == "" then [] else q.searchStudents(query)
  }

  /** The slice reducer, on values. It never touches `loading` or `error`, and it keeps the stored
      results those of the stored query. */
  function Reduce(q: StudentQueries, s: StudentState, a: StudentAction): (r: StudentState)
    ensures r.loading == s.loading && r.error == s.error
    ensures SearchConsistent(q, s) ==> SearchConsistent(q, r)
  {
    assert JsString.IsBlank("");
    match a
    case SetStudents(xs) => s.(students := xs)
    case SetSelectedStudent(x) => s.(selectedStudent := x)
    case SetSearchQuery(query) => s.(searchQuery := query, searchResults := SearchResultsFor(q, query))
    case ClearSearch => s.(searchQuery := "", searchResults := [])
    case LoadStudentById(id) => s.(selectedStudent := q.getStudentById(id))
  }

  /** The state after dispatching `actions` in order. */
  function Run(q: StudentQueries, s: StudentState, actions: seq<StudentAction>): StudentState
    decreases |actions|
  {
    if actions == [] then s else Run(q, Reduce(q, s, actions[0]), actions[1..])
  }

  /** The stored results are the ones derived from the stored query: none when it is blank,
      the search over it otherwise. */
  predicate SearchConsistent(q: StudentQueries, s: StudentState)
  {
    s.searchResults == if JsString.IsBlank(s.searchQuery) then [] else q.searchStudents(s.searchQuery)
  }

  /** A blank query, whitespace included, is stored verbatim and yields no results. */
  lemma BlankQueryGivesNoResults(q: StudentQueries, s: StudentState, query: string)
    requires JsString.IsBlank(query)
    ensures Reduce(q, s, SetSearchQuery(query)).searchQuery == query
    ensures Reduce(q, s, SetSearchQuery(query)).searchResults == []
  {
  }

  /** `clearSearch` is `setSearchQuery('')`. */
  lemma ClearSearchIsEmptyQuery(q: StudentQueries, s: StudentState)
    ensures Reduce(q, s, ClearSearch) == Reduce(q, s, SetSearchQuery(""))
  {
  }

  /** Setting the same query twice is setting it once. */
  lemma SetSearchQueryIdempotent(q: StudentQueries, s: StudentState, query: string)
    ensures Reduce(q, Reduce(q, s, SetSearchQuery(query)), SetSearchQuery(query))
         == Reduce(q, s, SetSearchQuery(query))
  {
  }

  /** Each reducer changes only its own fields. */
  lemma ReducerFrames(q: StudentQueries, s: StudentState, a: StudentAction)
    ensures var t := Reduce(q, s, a);
            && t.loading == s.loading && t.error == s.error
            && (!a.SetStudents? ==> t.students == s.students)
            && (!a.SetSelectedStudent? && !a.LoadStudentById? ==> t.selectedStudent == s.selectedStudent)
            && (!a.SetSearchQuery? && !a.ClearSearch? ==> t.searchQuery == s.searchQuery && t.searchResults == s.searchResults)
  {
  }

  /** No sequence of dispatches ever changes `loading` or `error`. */
  lemma {:induction false} RunKeepsLoadingAndError(q: StudentQueries, s: StudentState, actions: seq<StudentAction>)
    ensures Run(q, s, actions).loading == s.loading
    ensures Run(q, s, actions).error == s.error
    decreases |actions|
  {
    if actions != [] {
      ReducerFrames(q, s, actions[0]);
      RunKeepsLoadingAndError(q, Reduce(q, s, actions[0]), actions[1..]);
    }
  }

  /** From any state whose stored results are those of its stored query, they stay so after
      every sequence of dispatches (the initial state is one, see `InitialStateSearchConsistent`). */
  lemma {:induction false} RunKeepsSearchConsistent(q: StudentQueries, s: StudentState, actions: seq<StudentAction>)
    requires SearchConsistent(q, s)
    ensures SearchConsistent(q, Run(q, s, actions))
    decreases |actions|
  {
    if actions != [] {
      var t := Reduce(q, s, actions[0]);
      assert SearchConsistent(q, t) by {
        ReducerFrames(q, s, actions[0]);
        assert JsString.IsBlank("");
      }
      RunKeepsSearchConsistent(q, t, actions[1..]);
    }
  }

  lemma InitialStateSearchConsistent(q: StudentQueries, mockStudents: seq<Student>)
    ensures SearchConsistent(q, InitialState(mockStudents))
  {
    assert JsString.IsBlank("");
  }

  /** The slice as the store holds it: one record whose fields the reducers assign in place. */
  class StudentSlice {
    const queries: StudentQueries
    var students: seq<Student>
    var selectedStudent: Option<Student>
    var searchResults: seq<Student>
    var searchQuery: string
    var loading: bool
    var error: Option<string>

    /** The record's current value. */
    function State(): StudentState
      reads this
    {
      StudentState(students, selectedStudent, searchResults, searchQuery, loading, error)
    }

    constructor (queries: StudentQueries, mockStudents: seq<Student>)
      ensures this.queries == queries
      ensures State() == InitialState(mockStudents)
    {
      this.queries := queries;
      students, selectedStudent, searchResults, searchQuery := mockStudents, None, [], "";
      loading, error := false, None;
    }

    method SetStudents(xs: seq<Student>)
      modifies this`students
      ensures students == xs
      ensures State() == Reduce(queries, old(State()), StudentAction.SetStudents(xs))
    {
      students := xs;
    }

    method SetSelectedStudent(x: Option<Student>)
      modifies this`selectedStudent
      ensures selectedStudent == x
      ensures State() == Reduce(queries, old(State()), StudentAction.SetSelectedStudent(x))
    {
      selectedStudent := x;
    }

    method SetSearchQuery(query: string)
      modifies this`searchQuery, this`searchResults
      ensures searchQuery == query
      ensures JsString.IsBlank(query) ==> searchResults == []
      ensures !JsString.IsBlank(query) ==> searchResults == queries.searchStudents(query)
      ensures State() == Reduce(queries, old(State()), StudentAction.SetSearchQuery(query))
    {
      searchQuery := query;
      JsString.TrimEmptyIffBlank(query);
      if JsString.Trim(query) == "" {
        searchResults := [];
      } else {
        searchResults := queries.searchStudents(query);
      }
    }

    method ClearSearch()
      modifies this`searchQuery, this`searchResults
      ensures searchQuery == "" && searchResults == []
      ensures State() == Reduce(queries, old(State()), StudentAction.ClearSearch)
    {
      searchQuery := "";
      searchResults := [];
    }

    method LoadStudentById(id: StudentId)
      modifies this`selectedStudent
      ensures selectedStudent == queries.getStudentById(id)
      ensures State() == Reduce(queries, old(State()), StudentAction.LoadStudentById(id))
    {
      var student := queries.getStudentById(id);
      selectedStudent := student;
    }

    /** The store's dispatch of one action to this slice. */
    method Dispatch(a: StudentAction)
      modifies this
      ensures State() == Reduce(queries, old(State()), a)
    {
      match a
      case SetStudents(xs) => SetStudents(xs);
      case SetSelectedStudent(x) => SetSelectedStudent(x);
      case SetSearchQuery(query) => SetSearchQuery(query);
      case ClearSearch => ClearSearch();
      case LoadStudentById(id) => LoadStudentById(id);
    }
  }
}
