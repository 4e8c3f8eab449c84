/**
 A person (author or contributor) of a feed or entry: optional name, e-mail
 and URI, plus a list of attached modules that is created empty the first
 time it is read.  The person is a value; accessors that may initialise the
 list return the person after the call together with their result.
 */
module SyndPersonImpl {
  import opened Wrappers
  import opened Modules

  /** `modules == None` is a list that was never set, or was set to null. */
  datatype Person = Person(
    name: Option<string>,
    email: Option<string>,
    uri: Option<string>,
    modules: Option<seq<Module>>)

  /** Whatever `equals` may be handed: a person, an object of another class, or null. */
  datatype Object =
    | PersonObject(person: Person)
    | OtherObject(className: string)
    | Null

  /** A fresh person: every property null. */
  function New(): Person {
    Person(None, None, None, None)
  }

  function GetName(p: Person): Option<string> { p.name }
  function SetName(p: Person, name: Option<string>): Person { p.(name := name) }

  function GetEmail(p: Person): Option<string> { p.email }
  function SetEmail(p: Person, email: Option<string>): Person { p.(email := email) }

  function GetUri(p: Person): Option<string> { p.uri }
  function SetUri(p: Person, uri: Option<string>): Person { p.(uri := uri) }

  /**
   Returns the module list, never null: a list that was never set, or was
   set to null, is replaced by a fresh empty list which is kept.
   */
  function GetModules(p: Person): (r: (Person, seq<Module>))
    ensures r.0.modules == Some(r.1)
    ensures p.modules.Some? ==> r.1 == p.modules.value && r.0 == p
    ensures p.modules.None? ==> r.1 == []
    ensures r.0.name == p.name && r.0.email == p.email && r.0.uri == p.uri
  {
    if p.modules.None? then
      (p.(modules := Some([])), [])
    else
      (p, p.modules.value)
  }

  /** Replaces the module list; null is allowed. */
  function SetModules(p: Person, modules: Option<seq<Module>>): Person {
    p.(modules := modules)
  }

  /**
   The first attached module whose URI is `uri`, or none.  Reading the list
   initialises it as `GetModules` does.
   */
  method GetModule(p: Person, uri: string) returns (q: Person, m: Option<Module>)
    ensures q == GetModules(p).0
    ensures var mods := GetModules(p).1;
      m.None? <==> forall i :: 0 <= i < |mods| ==> mods[i].Uri() != uri
    ensures var mods := GetModules(p).1;
      m.Some? ==> exists i :: 0 <= i < |mods| && mods[i] == m.value && m.value.Uri() == uri &&
                              forall j :: 0 <= j < i ==> mods[j].Uri() != uri
  {
    var r := GetModules(p);
    q := r.0;
    var mods := r.1;
    var i := 0;
    while i < |mods|
      invariant 0 <= i <= |mods|
      invariant forall j :: 0 <= j < i ==> mods[j].Uri() != uri
    {
      if mods[i].Uri() == uri {
        m := Some(mods[i]);
        return;
      }
      i := i + 1;
    }
    m := None;
  }

  /**
   Equality: false for anything that is not a person; otherwise the bean
   comparison `beanEquals` decides.
   */
  predicate Equals(p: Person, other: Object, beanEquals: (Person, Person) -> bool)
    ensures !other.PersonObject? ==> !Equals(p, other, beanEquals)
    ensures other.PersonObject? ==> (Equals(p, other, beanEquals) <==> beanEquals(p, other.person))
  {
    match other
    case PersonObject(q) => beanEquals(p, q)
    case OtherObject(_) => false
    case Null => false
  }

  /** Name, e-mail and URI each read back what was set, null included. */
  lemma SetGetRoundTrip(p: Person, x: Option<string>)
    ensures GetName(SetName(p, x)) == x
    ensures GetEmail(SetEmail(p, x)) == x
    ensures GetUri(SetUri(p, x)) == x
  {
  }

  /** Setting one of name, e-mail or URI leaves the other two and the modules unchanged. */
  lemma SettersFrame(p: Person, x: Option<string>)
    ensures var q := SetName(p, x);
      GetEmail(q) == GetEmail(p) && GetUri(q) == GetUri(p) && GetModules(q).1 == GetModules(p).1
    ensures var q := SetEmail(p, x);
      GetName(q) == GetName(p) && GetUri(q) == GetUri(p) && GetModules(q).1 == GetModules(p).1
    ensures var q := SetUri(p, x);
      GetName(q) == GetName(p) && GetEmail(q) == GetEmail(p) && GetModules(q).1 == GetModules(p).1
  {
  }

  /** The module list reads as empty when never set or set to null. */
  lemma ModulesDefaultEmpty(p: Person)
    ensures GetModules(New()).1 == []
    ensures GetModules(SetModules(p, None)).1 == []
  {
  }

  /** A non-null list that was set is the list read back. */
  lemma SetModulesRoundTrip(p: Person, modules: seq<Module>)
    ensures GetModules(SetModules(p, Some(modules))).1 == modules
  {
  }

  /**
   Once a list has been produced, later reads return that same list and
   change nothing, also after name, e-mail or URI are set.
   */
  lemma GetModulesStable(p: Person, x: Option<string>)
    ensures var first := GetModules(p);
      GetModules(first.0) == first
    ensures var first := GetModules(p);
      && GetModules(SetName(first.0, x)).1 == first.1
      && GetModules(SetEmail(first.0, x)).1 == first.1
      && GetModules(SetUri(first.0, x)).1 == first.1
  {
  }
}
