/**
 * The scoped map's documented behaviour and unit tests, each on a fresh map and stated
 * as what the calls return.
 */
module ScopedMapExamples {
  import opened Wrappers
  import opened ScopedMaps

  /** A value inserted is the value retrieved. */
  method GetAfterInsert() returns (r: Option<string>)
    ensures r == Some("ginger")
  {
    var cats := new ScopedMap<string, string>();
    cats.Insert("mint", "ginger");
    r := cats.Get("mint");
  }

  /** Ending a scope rolls back an update made in it. */
  method EndScopeRollsBackUpdate() returns (inScope: Option<string>, ended: bool, after: Option<string>)
    ensures inScope == Some("gray") && ended && after == Some("black")
  {
    var cats := new ScopedMap<string, string>();
    cats.Insert("paganini", "black");
    cats.BeginScope();
    cats.Insert("paganini", "gray");
    inScope := cats.Get("paganini");
    ended := cats.EndScope();
    after := cats.Get("paganini");
  }

  /** Ending a scope rolls back an insert made in it. */
  method EndScopeRollsBackInsert() returns (inScope: Option<string>, ended: bool, after: Option<string>)
    ensures inScope == Some("ginger") && ended && after == None
  {
    var cats := new ScopedMap<string, string>();
    cats.BeginScope();
    cats.Insert("mint", "ginger");
    inScope := cats.Get("mint");
    ended := cats.EndScope();
    after := cats.Get("mint");
  }

  /** With no scope open there is no scope to end. */
  method EndScopeWithoutScope() returns (ended: bool)
    ensures !ended
  {
    var cats := new ScopedMap<string, string>();
    ended := cats.EndScope();
  }

  /** A global insert made inside a scope survives the end of the scope. */
  method InsertGlobalSurvivesEndScope() returns (ended: bool, after: Option<string>)
    ensures ended && after == Some("gray")
  {
    var cats := new ScopedMap<string, string>();
    cats.Insert("paganini", "black");
    cats.BeginScope();
    cats.InsertGlobal("paganini", "gray");
    ended := cats.EndScope();
    after := cats.Get("paganini");
  }

  /** After a scope's insert is rolled back, the key can be inserted again outside it. */
  method InsertAfterNestedInsert() returns (ended: bool, rolledBack: Option<int>, after: Option<int>)
    ensures ended && rolledBack == None && after == Some(4)
  {
    var m := new ScopedMap<int, int>();
    m.BeginScope();
    m.Insert(3, 5);
    ended := m.EndScope();
    rolledBack := m.Get(3);
    m.Insert(3, 4);
    after := m.Get(3);
  }

  /** A global insert of a key never inserted before survives the end of the scope. */
  method InsertGlobalAfterNoInsert() returns (ended: bool, after: Option<int>)
    ensures ended && after == Some(5)
  {
    var m := new ScopedMap<int, int>();
    m.BeginScope();
    m.InsertGlobal(3, 5);
    ended := m.EndScope();
    after := m.Get(3);
  }

  /** Two inserts of one key in one scope overwrite each other, and one `EndScope` undoes both. */
  method DoubleInsertUndoneByOneEndScope() returns (inScope: Option<int>, ended: bool, after: Option<int>)
    ensures inScope == Some(7) && ended && after == Some(1)
  {
    var m := new ScopedMap<int, int>();
    m.Insert(3, 1);
    m.BeginScope();
    m.Insert(3, 5);
    m.Insert(3, 7);
    inScope := m.Get(3);
    ended := m.EndScope();
    after := m.Get(3);
  }

  /**
   * Whatever the map holds, a scope opened, written to and ended leaves every depth of the map
   * exactly as it was before the scope was opened.
   */
  method ScopeIsRolledBack<K(==,!new), V>(m: ScopedMap<K, V>, key: K, val: V) returns (ended: bool)
    requires m.Valid()
    modifies m
    ensures m.Valid() && ended
    ensures m.View() == old(m.View())
  {
    m.BeginScope();
    m.Insert(key, val);
    ended := m.EndScope();
  }
}
