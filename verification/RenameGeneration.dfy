/** The version a client holds does not name a generation: a rename meant for a deleted
    project can reach the project that reuses its ID (internal/project/local/rename.go,
    internal/server/projects.go). */
module RenameGeneration {
  import opened Wrappers
  import opened Projects
  import opened ProjectIds
  import opened ProjectRuns

  const ID := "a"

  ghost function End(states: seq<Workspace>): Workspace
    requires states != []
  {
    states[|states| - 1]
  }

  lemma Take(states: seq<Workspace>, steps: seq<Step>, step: Step)
    returns (longer: seq<Workspace>, more: seq<Step>)
    requires Run(states, steps) && Allowed(End(states), step)
    ensures Run(longer, more) && states <= longer && End(longer) == After(End(states), step)
  {
    longer, more := states + [After(End(states), step)], steps + [step];
  }

  function ReadyRow(name: string, token: string): Project {
    Project(ID, "git", name, Ready, "", token, 2)
  }

  /** A Create that meets no trouble. */
  lemma CreateAlone(states: seq<Workspace>, steps: seq<Step>, c: nat, name: string, token: string)
    returns (longer: seq<Workspace>, more: seq<Step>)
    requires Run(states, steps) && c !in End(states).calls && token != "" && token !in End(states).tokens
    requires ValidId(ID) && End(states).rows == map[] && End(states).directories == map[]
    ensures Run(longer, more) && states <= longer
    ensures End(longer).rows == map[ID := ReadyRow(name, token)]
    ensures End(longer).directories == map[ID := Directory(Some(token), true)]
    ensures ReadyRow(name, token) in End(longer).log
    ensures End(longer).calls.Keys == End(states).calls.Keys + {c} && End(longer).tokens == End(states).tokens + {token}
  {
    var p := NewProject(ID, name, token);
    longer, more := Take(states, steps, BeginCreate(c, ID, name, token));
    longer, more := Take(longer, more, Advance(c, Statement(Works)));
    assert End(longer).rows == map[ID := p] && End(longer).calls[c] == MakingDirectory(p);
    longer, more := Take(longer, more, Advance(c, Files(false, false)));
    longer, more := Take(longer, more, Advance(c, Files(false, false)));
    assert End(longer).calls[c] == Completing(p);
    longer, more := Take(longer, more, Advance(c, Statement(Works)));
  }

  lemma DeleteAlone(states: seq<Workspace>, steps: seq<Step>, c: nat, p: Project)
    returns (longer: seq<Workspace>, more: seq<Step>)
    requires Run(states, steps) && c !in End(states).calls && p in End(states).log
    requires p.id == ID && p.state == Ready && p.token != ""
    requires End(states).rows == map[ID := p] && End(states).directories.Keys == {ID}
    ensures Run(longer, more) && states <= longer
    ensures End(longer).rows == map[] && End(longer).directories == map[]
    ensures End(longer).calls.Keys == End(states).calls.Keys + {c} && End(longer).tokens == End(states).tokens
  {
    var d := Updated(p, Claimed(p));
    longer, more := Take(states, steps, BeginDelete(c, p));
    longer, more := Take(longer, more, Advance(c, Statement(Works)));
    assert End(longer).rows == map[ID := d] && End(longer).calls[c] == Removing(d);
    longer, more := Take(longer, more, Advance(c, Files(false, false)));
    longer, more := Take(longer, more, Advance(c, Statement(Works)));
  }

  lemma IdIsValid()
    ensures ValidId(ID)
  {
    PatternIffWellFormed(ID);
  }

  /** There is a run in which a client reads a ready project, the project is deleted, its ID is
      used again, and a rename with the version the client read is accepted for the new one. */
  lemma VersionAloneNamesNoGeneration() returns (states: seq<Workspace>, steps: seq<Step>, m: nat, c: nat)
    ensures Run(states, steps) && m < |states| && ID in states[m].rows && c in End(states).calls
    ensures End(states).calls[c].Renaming?
    ensures m > 0 && exists n: nat, name: string ::
              m < n < |states| - 1 && c in states[n].calls
              && states[n].calls[c] == Fetching(ID, name, states[m].rows[ID].version)
    ensures End(states).calls[c].p.token != states[m].rows[ID].token
  {
    IdIsValid();
    states, steps := [Workspace(map[], map[], map[], {}, {})], [];
    states, steps := CreateAlone(states, steps, 0, "first", "t1");
    m := |states| - 1;
    ghost var read := states;
    states, steps := DeleteAlone(states, steps, 1, ReadyRow("first", "t1"));
    assert "t2" !in End(states).tokens;
    states, steps := CreateAlone(states, steps, 2, "second", "t2");
    c := 3;
    states, steps := Take(states, steps, BeginRename(c, ID, "late", 2));
    ghost var n := |states| - 1;
    assert states[n].calls[c] == Fetching(ID, "late", 2);
    states, steps := Take(states, steps, Advance(c, Statement(Works)));
    assert states[m] == End(read);
  }
}
