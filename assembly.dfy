/**
 * The application-state container of the root component `Assembly`: the
 * translation dictionary, the alert queue, the current page and the menu
 * state, with the accessors child components call.
 */
module AssemblyState {
  import opened Values
  import opened Paths
  import opened Alerts
  import opened Translation

  /** The instance fields the container declares. */
  const DeclaredFields: set<string> := {"dictionary", "menu", "alerts", "currentPage"}

  /** The declared fields whose model type cannot hold an arbitrary value. */
  const TypedFields: set<string> := {"alerts", "currentPage"}

  /** The alert queue as the array value `fetch` sees. */
  function AlertValues(alerts: seq<string>): (vs: seq<Value>)
    ensures |vs| == |alerts|
    ensures forall i :: 0 <= i < |alerts| ==> vs[i] == Str(alerts[i])
  {
    if alerts == [] then [] else [Str(alerts[0])] + AlertValues(alerts[1..])
  }

  /** The current page as the value `fetch` sees: `null` before routing. */
  function PageValue(page: Option<Page>): Value {
    match page
    case None => Null
    case Some(p) => Component(p)
  }

  /** The own properties of the container, from its fields. */
  function OwnProperties(dictionary: Value, menu: Value, alerts: seq<string>, page: Option<Page>,
                         extra: map<string, Value>): map<string, Value>
  {
    extra + map[
      "dictionary" := dictionary,
      "menu" := menu,
      "alerts" := List(AlertValues(alerts)),
      "currentPage" := PageValue(page)]
  }

  /** An own-property map that agrees with the typed fields is rebuilt exactly
      from its declared entries and the rest. */
  lemma OwnPropertiesSplit(props: map<string, Value>, alerts: seq<string>, page: Option<Page>)
    requires DeclaredFields <= props.Keys
    requires props["alerts"] == List(AlertValues(alerts)) && props["currentPage"] == PageValue(page)
    ensures OwnProperties(props["dictionary"], props["menu"], alerts, page, props - DeclaredFields) == props
  {
    var rebuilt := OwnProperties(props["dictionary"], props["menu"], alerts, page, props - DeclaredFields);
    assert rebuilt.Keys == props.Keys;
  }

  class Assembly {
    var dictionary: Value
    var alerts: seq<string>
    var currentPage: Option<Page>
    var menu: Value
    /** Own properties that `set` created beyond the declared fields. */
    var extra: map<string, Value>

    /** The extra own properties never shadow a declared field. It reads only
        `extra`, so the methods that leave `extra` alone keep it. */
    ghost predicate Valid()
      reads this`extra
    {
      extra.Keys !! DeclaredFields
    }

    /** The object's own state as the root `set` and `fetch` walk from. */
    function Root(): Value
      reads this
    {
      Node(OwnProperties(dictionary, menu, alerts, currentPage, extra))
    }

    /** The field initialisers, then `route()`. The dictionary is the English
        language table, which is a parameter here. */
    constructor (english: Value)
      ensures Valid()
      ensures dictionary == english && alerts == [] && menu == Node(map[]) && extra == map[]
      ensures currentPage == Some(Home)
    {
      dictionary := english;
      alerts := [];
      currentPage := None;
      menu := Node(map[]);
      extra := map[];
      new;
      Route();
    }

    /** `route()`: always selects the home page. */
    method Route()
      modifies this`currentPage
      ensures currentPage == Some(Home)
    {
      currentPage := Some(Home);
    }

    /** `logout()`: the network collaborator's `clearWatches()` is outside the
        model; the page goes back to home whatever it was. */
    method Logout()
      modifies this`currentPage
      ensures currentPage == Some(Home)
    {
      currentPage := Some(Home);
    }

    /** The `locale` getter: a constant that no state influences. */
    function Locale(): (locale: string)
      ensures locale == "en"
    {
      "en"
    }

    /** `alert(message)`: push onto the queue, duplicates included. */
    method Alert(message: string)
      modifies this`alerts
      ensures alerts == old(alerts) + [message]
    {
      alerts := alerts + [message];
    }

    /** `dismissAlert(message)`: splice out the first occurrence, if any. */
    method DismissAlert(message: string)
      modifies this`alerts
      ensures alerts == Dismissed(old(alerts), message)
    {
      var index := IndexOf(alerts, message);
      if index > -1 {
        alerts := alerts[..index] + alerts[index + 1..];
      }
    }

    /** `fetch(tag)`: walk the segments of `tag` from the object itself. */
    method Fetch(tag: string) returns (r: Result<Value>)
      ensures r == FetchPath(Root(), Split(tag, '.'))
    {
      var parts := Split(tag, '.');
      var data := Root();
      for i := 0 to |parts|
        invariant FetchPath(Root(), parts) == FetchPath(data, parts[i..])
      {
        var next := Get(data, parts[i]);
        if next.Err? {
          return Err(next.error);
        }
        data := next.value;
      }
      return Ok(data);
    }

    /** `set(tag, value)`: walk to the parent of the last segment, then assign
        there. The walk is the loop of the source; the assignment rebuilds the
        state tree, which stands for the in-place write. */
    method Set(tag: string, value: Value) returns (r: Result<()>)
      requires Valid()
      modifies this`dictionary, this`menu, this`extra
      ensures Valid()
      ensures Split(tag, '.')[0] in TypedFields ==> r == Err(UnmodelledWrite)
      ensures Split(tag, '.')[0] !in TypedFields ==>
                (r.Ok? <==> IntermediatesExist(old(Root()), Split(tag, '.')))
      ensures r.Err? && Split(tag, '.')[0] !in TypedFields ==> r.error == TypeError
      ensures r.Ok? ==> Ok(Root()) == SetPath(old(Root()), Split(tag, '.'), value)
      ensures r.Ok? ==> FetchPath(Root(), Split(tag, '.')) == Ok(value)
      ensures r.Err? ==> dictionary == old(dictionary) && menu == old(menu) && extra == old(extra)
    {
      var parts := Split(tag, '.');
      if parts[0] in TypedFields {
        return Err(UnmodelledWrite);
      }
      var root := Root();
      SetPathOkIff(root, parts, value);
      var data := root;
      var i := 0;
      while i < |parts| - 1
        invariant 0 <= i <= |parts| - 1
        invariant SetPath(root, parts, value).Ok? <==> SetPath(data, parts[i..], value).Ok?
      {
        var next := Get(data, parts[i]);
        if next.Err? {
          return Err(next.error);
        }
        data := next.value;
        i := i + 1;
      }
      if !data.Node? {
        return Err(TypeError);
      }
      var updated := SetPath(root, parts, value).value;
      SetPathRoot(root, parts, value);
      SetThenFetch(root, parts, value);
      OwnPropertiesSplit(updated.fields, alerts, currentPage);
      dictionary := updated.fields["dictionary"];
      menu := updated.fields["menu"];
      extra := updated.fields - DeclaredFields;
      r := Ok(());
    }

    /** `translate(semantic)`: the dictionary lookup of a dot-separated key,
        with the sentinel at the first missing or falsy word. */
    method Translate(semantic: string) returns (r: Result<Value>)
      ensures r == TranslatePath(dictionary, Split(semantic, '.'))
      ensures r.Err? <==> Nullish(dictionary)
      ensures PathTruthy(dictionary, Split(semantic, '.')) ==>
                r == FetchPath(dictionary, Split(semantic, '.'))
      ensures !Nullish(dictionary) && !PathTruthy(dictionary, Split(semantic, '.')) ==>
                r == Ok(Str(NotFound))
    {
      var words := Split(semantic, '.');
      var entries := dictionary;
      TranslateThrowsIff(dictionary, words);
      if PathTruthy(dictionary, words) {
        TranslateFound(dictionary, words);
      } else if !Nullish(dictionary) {
        TranslateNotFound(dictionary, words);
      }
      for i := 0 to |words|
        invariant TranslatePath(dictionary, words) == TranslatePath(entries, words[i..])
      {
        var entry := Get(entries, words[i]);
        if entry.Err? {
          return Err(entry.error);
        }
        if !Truthy(entry.value) {
          return Ok(Str(NotFound));
        }
        entries := entry.value;
      }
      return Ok(entries);
    }
  }

  /** A client of the alert queue and the router: what the shell can rely on
      from the contracts above alone. */
  method AlertScenario(english: Value)
  {
    var app := new Assembly(english);
    assert app.currentPage == Some(Home);

    app.Alert("x");
    app.DismissAlert("x");
    assert app.alerts == [];

    app.Alert("y");
    app.Alert("y");
    app.DismissAlert("y");
    assert app.alerts == ["y"];

    app.Logout();
    assert app.currentPage == Some(Home);
    assert app.Valid();
  }

  /** A client of `set` and `fetch`. */
  method MenuScenario(english: Value)
  {
    var menuOpen := "menu.open";
    assert Join(["menu", "open"], '.') == menuOpen;
    SplitJoin(["menu", "open"], '.');
    var app := new Assembly(english);
    var props := OwnProperties(app.dictionary, app.menu, app.alerts, app.currentPage, app.extra);
    assert props["menu"] == Node(map[]) && app.Root() == Node(props);
    assert FetchPath(Node(props), ["menu"]) == Ok(Node(map[]));
    assert ["menu", "open"][..1] == ["menu"];
    var written := app.Set(menuOpen, Bool(true));
    assert written.Ok?;
    var read := app.Fetch(menuOpen);
    assert read == Ok(Bool(true));
  }
}
