/**
 * A client of the CRUD operations: the walk-through on the example test table (three
 * creates, an update, a retrieve, a delete and two existence checks),
 * proved from the operations' contracts alone.
 */
module Scenario {
  import opened Wrappers
  import opened Columns
  import opened Crud

  const TestTable := Table("test_table", {"project_uuid", "project_name", "annotation"})
  const Project1: Row := map["project_name" := Text("Project 1"), "annotation" := Text("This is project 1")]
  const Project2: Row := map["project_name" := Text("Project 2"), "annotation" := Text("This is project 2")]
  const Project2Updated: Row := map["project_name" := Text("Project 2"), "annotation" := Text("This is project 2 updated")]
  const NewAnnotation: Row := map["annotation" := Text("This is project 2 updated")]
  const NameProject1: map<string, Value> := map["project_name" := Text("Project 1")]
  const NameProject2: map<string, Value> := map["project_name" := Text("Project 2")]

  lemma NamesDiffer()
    ensures !Matches(Project1, NameProject2, []) && Matches(Project2, NameProject2, []) && Matches(Project2Updated, NameProject2, [])
    ensures Matches(Project1, NameProject1, []) && !Matches(Project2Updated, NameProject1, [])
  {
    assert "Project 1"[8] != "Project 2"[8];
    assert Project1["project_name"] != NameProject2["project_name"];
    assert Project2Updated["project_name"] != NameProject1["project_name"];
  }

  lemma UpdateStep()
    ensures UpdateRows([Project1, Project2, Project2], Selector(NameProject2, []), NewAnnotation) == [Project1, Project2Updated, Project2Updated]
  {
    NamesDiffer();
    assert Project2 + NewAnnotation == Project2Updated;
  }

  lemma RetrieveStep()
    ensures ShapeAll(Select([Project1, Project2Updated, Project2Updated], Selector(NameProject2, [])), []) == [Project2Updated, Project2Updated]
  {
    NamesDiffer();
    assert Select([Project1, Project2Updated, Project2Updated], Selector(NameProject2, [])) == [Project2Updated, Project2Updated];
  }

  lemma DeleteStep()
    ensures Select([Project1, Project2Updated, Project2Updated], Selector(NameProject1, [])) == [Project1]
    ensures Select([Project1, Project2Updated, Project2Updated], Not(Selector(NameProject1, []))) == [Project2Updated, Project2Updated]
  {
    NamesDiffer();
    var rows := [Project1, Project2Updated, Project2Updated];
    assert rows[1..] == [Project2Updated, Project2Updated] && rows[1..][1..] == [Project2Updated];
    assert Select([Project2Updated], Selector(NameProject1, [])) == [];
    assert Select([Project2Updated, Project2Updated], Selector(NameProject1, [])) == [];
  }

  /** Three creates on an empty test table store the three rows. */
  method CreateProjects() returns (db: Database)
    ensures fresh(db) && db.Valid() && db.table == TestTable && db.rows == [Project1, Project2, Project2]
  {
    db := new Database(TestTable, []);
    var c1 := db.Create(Project1);
    var c2 := db.Create(Project2);
    var c3 := db.Create(Project2);
  }

  /** Updating the annotation of "Project 2" changes both of its rows and leaves "Project 1" alone. */
  method UpdateProjects(db: Database)
    requires db.Valid() && db.table == TestTable && db.rows == [Project1, Project2, Project2]
    modifies db
    ensures db.Valid() && db.rows == [Project1, Project2Updated, Project2Updated]
  {
    assert NewAnnotation.Keys == {"annotation"};
    var u := db.Update(NewAnnotation, [], NameProject2);
    UpdateStep();
  }

  /** Deleting "Project 1" removes one row and returns nothing. */
  method DeleteProject(db: Database)
    requires db.Valid() && db.table == TestTable && db.rows == [Project1, Project2Updated, Project2Updated]
    modifies db
    ensures db.Valid() && db.rows == [Project2Updated, Project2Updated]
  {
    var d := db.Delete([], [], false, NameProject1);
    DeleteStep();
    assert d == Ok(None);
  }

  /** Retrieving "Project 2" returns exactly its two updated rows. */
  method RetrieveProject2(db: Database)
    requires db.Valid() && db.table == TestTable && db.rows == [Project1, Project2Updated, Project2Updated]
  {
    var got := db.Retrieve([], [], "all", NameProject2);
    RetrieveStep();
    assert got.Ok? && multiset(got.value.records) == multiset{Project2Updated, Project2Updated};
  }

  /** After the delete, "Project 2" exists and "Project 1" does not. */
  method CheckExistence(db: Database)
    requires db.Valid() && db.table == TestTable && db.rows == [Project2Updated, Project2Updated]
  {
    var e2 := db.Exists([], NameProject2);
    NamesDiffer();
    assert Matches(db.rows[0], NameProject2, []);
    assert e2 == Ok(true);
    var e1 := db.Exists([], NameProject1);
    assert e1 == Ok(false);
  }

  method ProjectWalkthrough() {
    var db := CreateProjects();
    UpdateProjects(db);
    RetrieveProject2(db);
    DeleteProject(db);
    CheckExistence(db);
  }
}
