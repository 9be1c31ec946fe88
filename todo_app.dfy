/**
 * The demo todo application: the list transforms behind "mark complete" and
 * "add", and the component state (`status`, the input text, the list, the
 * recorded error) that its fetch, submit and check-box handlers update.
 */
module TodoApp {
  import opened Wrappers

  /** One todo as the todo API returns it. */
  datatype Todo = Todo(id: int, todo: string, completed: bool)

  /** `"idle" | "loading" | "adding"`. */
  datatype Status = Idle | Loading | Adding

  /**
   * The reason one of the todo API calls was rejected with, as `setError`
   * records it: an `Error` object, or a falsy value (`undefined`, `null`, `""`,
   * `0`, ...) that the `err as Error` cast lets through unchecked.
   */
  datatype Reason = ErrorObject(message: string) | Falsy

  /** Whether `if (error)` takes the recorded reason as an error to throw. */
  predicate IsTruthy(error: Option<Reason>) {
    error.Some? && error.value.ErrorObject?
  }

  // ---------------------------------------------------------------------------
  // List transforms
  // ---------------------------------------------------------------------------

  /**
   * The optimistic update of `markComplete`: the todos whose id is `todoId`
   * become completed with their other fields kept, every other todo is returned
   * as it was, and the list keeps its length and order.
   */
  function MarkCompleted(todos: seq<Todo>, todoId: int): (r: seq<Todo>)
    ensures |r| == |todos|
    ensures forall i :: 0 <= i < |todos| && todos[i].id == todoId ==>
      r[i].completed && r[i].id == todos[i].id && r[i].todo == todos[i].todo
    ensures forall i :: 0 <= i < |todos| && todos[i].id != todoId ==> r[i] == todos[i]
  {
    seq(|todos|, i requires 0 <= i < |todos| =>
      if todos[i].id == todoId then todos[i].(completed := true) else todos[i])
  }

  /** The ids of a list, in order. */
  function Ids(todos: seq<Todo>): (r: seq<int>)
    ensures |r| == |todos|
    ensures forall i :: 0 <= i < |todos| ==> r[i] == todos[i].id
  {
    seq(|todos|, i requires 0 <= i < |todos| => todos[i].id)
  }

  /** Marking complete keeps the ids and their order. */
  lemma MarkCompletedKeepsIds(todos: seq<Todo>, todoId: int)
    ensures Ids(MarkCompleted(todos, todoId)) == Ids(todos)
  {
  }

  /** Marking an id no todo carries changes nothing. */
  lemma MarkCompletedNoMatch(todos: seq<Todo>, todoId: int)
    requires forall i :: 0 <= i < |todos| ==> todos[i].id != todoId
    ensures MarkCompleted(todos, todoId) == todos
  {
  }

  /** Marking the same id twice is marking it once. */
  lemma MarkCompletedIdempotent(todos: seq<Todo>, todoId: int)
    ensures MarkCompleted(MarkCompleted(todos, todoId), todoId) == MarkCompleted(todos, todoId)
  {
  }

  /** Marking two ids commutes: the order of check-box clicks does not matter. */
  lemma MarkCompletedCommutes(todos: seq<Todo>, a: int, b: int)
    ensures MarkCompleted(MarkCompleted(todos, a), b) == MarkCompleted(MarkCompleted(todos, b), a)
  {
  }

  // ---------------------------------------------------------------------------
  // Rendering
  // ---------------------------------------------------------------------------

  /** What the component renders when it does not throw. */
  datatype View =
    | Spinner
    | TodoList(welcome: bool, addLabel: string, items: seq<Todo>)

  /**
   * Rendering: a recorded truthy error is thrown; otherwise (no error, or a
   * falsy one) a spinner while loading, and the list, with the welcome line when
   * it is empty and "Adding..." on the button while a todo is being saved.
   */
  function Render(status: Status, todos: seq<Todo>, error: Option<Reason>): (r: Result<View, Reason>)
    ensures r.Failure? <==> IsTruthy(error)
    ensures r.Failure? ==> r.error == error.value
    ensures r.Success? ==> (r.value.Spinner? <==> status == Loading)
    ensures r.Success? && r.value.TodoList? ==>
      && (r.value.welcome <==> todos == [])
      && (r.value.addLabel == if status == Adding then "Adding..." else "Add")
      && r.value.items == todos
  {
    if IsTruthy(error) then Failure(error.value)
    else if status == Loading then Success(Spinner)
    else Success(TodoList(|todos| == 0, if status == Adding then "Adding..." else "Add", todos))
  }

  // ---------------------------------------------------------------------------
  // Component state
  // ---------------------------------------------------------------------------

  /**
   * The state of one App component. Each handler that awaits the todo API is
   * split at its `await`: a Start step for what runs before it and a Finish step
   * that receives the call's outcome.
   */
  class App {
    var status: Status
    var todo: string
    var todos: seq<Todo>
    var error: Option<Reason>

    /** Mount: loading, empty input, no todos, no error. */
    constructor ()
      ensures status == Loading && todo == "" && todos == [] && error == None
    {
      status := Loading;
      todo := "";
      todos := [];
      error := None;
    }

    /** What the component renders now: it throws exactly when a truthy error is recorded. */
    function View(): (r: Result<View, Reason>)
      reads this
      ensures r.Failure? <==> error.Some? && error.value.ErrorObject?
      ensures r.Failure? ==> r.error == error.value
      ensures r.Success? ==> (r.value.Spinner? <==> status == Loading)
    {
      Render(status, todos, error)
    }

    /** `fetchTodos` up to the `getTodos` call: the status becomes loading. */
    method StartFetch()
      modifies this`status
      ensures status == Loading
    {
      status := Loading;
    }

    /**
     * `fetchTodos` after `getTodos` settles: the fetched list replaces the todos,
     * or the rejection is recorded; either way the status ends idle.
     */
    method FinishFetch(fetched: Result<seq<Todo>, Reason>)
      modifies this`todos, this`error, this`status
      ensures status == Idle
      ensures fetched.Success? ==> todos == fetched.value && error == old(error)
      ensures fetched.Failure? ==> todos == old(todos) && error == Some(fetched.error)
    {
      match fetched {
        case Success(list) => todos := list;
        case Failure(e) => error := Some(e);
      }
      status := Idle;
    }

    /** `onSubmit` up to the `addTodo` call: the status becomes adding; the input text is what is saved. */
    method StartAdd() returns (text: string)
      modifies this`status
      ensures status == Adding
      ensures text == todo
    {
      status := Adding;
      text := todo;
    }

    /**
     * `onSubmit` after `addTodo` settles: the saved todo is appended after the
     * existing ones and the input is cleared, or the rejection is recorded and
     * list and input are kept; either way the status ends idle.
     */
    method FinishAdd(saved: Result<Todo, Reason>)
      modifies this`todos, this`todo, this`error, this`status
      ensures status == Idle
      ensures saved.Success? ==>
        todos == old(todos) + [saved.value] && todo == "" && error == old(error)
      ensures saved.Failure? ==>
        todos == old(todos) && todo == old(todo) && error == Some(saved.error)
    {
      match saved {
        case Success(t) =>
          todos := todos + [t];
          todo := "";
        case Failure(e) =>
          error := Some(e);
      }
      status := Idle;
    }

    /** `markComplete` before `markTodoComplete`: the optimistic update, status untouched. */
    method MarkComplete(todoId: int)
      modifies this`todos
      ensures todos == MarkCompleted(old(todos), todoId)
    {
      todos := MarkCompleted(todos, todoId);
    }

    /** `markComplete` after `markTodoComplete` settles: a rejection is recorded, the list is not rolled back. */
    method FinishMarkComplete(outcome: Result<(), Reason>)
      modifies this`error
      ensures outcome.Success? ==> error == old(error)
      ensures outcome.Failure? ==> error == Some(outcome.error)
    {
      if outcome.Failure? {
        error := Some(outcome.error);
      }
    }

    /** The input's `onChange`. */
    method SetTodo(text: string)
      modifies this`todo
      ensures todo == text
    {
      todo := text;
    }
  }

  /**
   * After a fetch rejected with `e` the status is idle and the next render
   * throws `e` exactly when `e` is truthy; a falsy reason shows the list.
   */
  method FailedFetchThrows(app: App, e: Reason)
    modifies app
    ensures app.status == Idle && app.error == Some(e)
    ensures app.View().Failure? <==> e.ErrorObject?
    ensures app.View().Failure? ==> app.View().error == e
  {
    app.StartFetch();
    app.FinishFetch(Failure(e));
  }
}
