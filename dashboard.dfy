/** The dashboard page (`Dashboard`): the project list, seeded from
    `mockProjects` and extended through the "New Project" dialog. */
module DashboardPage {
  import opened Text
  import opened MockData

  /** The id a new project gets: `String(projects.length + 1)`. */
  function NextProjectId(projects: seq<MockProject>): (id: string)
    ensures SequentialProjectIds(projects) ==> forall i :: 0 <= i < |projects| ==> projects[i].id != id
  {
    var id := NatToString(|projects| + 1);
    assert SequentialProjectIds(projects) ==> forall i :: 0 <= i < |projects| ==> projects[i].id != id by {
      if SequentialProjectIds(projects) {
        forall i | 0 <= i < |projects| ensures projects[i].id != id {
          NatToStringInjective(i + 1, |projects| + 1);
        }
      }
    }
    id
  }

  class Dashboard {
    var isDialogOpen: bool
    var projects: seq<MockProject>
    var newTitle: string
    var newDescription: string

    /** The page mounted: the list starts as the seed list. */
    constructor (seed: seq<MockProject>)
      ensures projects == seed
      ensures !isDialogOpen && newTitle == "" && newDescription == ""
    {
      isDialogOpen := false;
      projects := seed;
      newTitle, newDescription := "", "";
    }

    /** The dialog's `onOpenChange`. */
    method SetDialogOpen(open: bool)
      modifies this
      ensures isDialogOpen == open
      ensures projects == old(projects) && newTitle == old(newTitle) && newDescription == old(newDescription)
    {
      isDialogOpen := open;
    }

    /** The title input's `onChange`. */
    method EditTitle(value: string)
      modifies this
      ensures newTitle == value
      ensures projects == old(projects) && newDescription == old(newDescription) && isDialogOpen == old(isDialogOpen)
    {
      newTitle := value;
    }

    /** The description textarea's `onChange`. */
    method EditDescription(value: string)
      modifies this
      ensures newDescription == value
      ensures projects == old(projects) && newTitle == old(newTitle) && isDialogOpen == old(isDialogOpen)
    {
      newDescription := value;
    }

    /** `handleSubmit`: refuses a title that trims to nothing and changes
        nothing; otherwise appends one project, with the title and
        description as typed (untrimmed), closes the dialog and empties the
        form. */
    method HandleSubmit(createdAt: string) returns (toast: Toast)
      modifies this
      ensures Blank(Js, old(newTitle)) ==>
        && toast == Failure("Please enter a project title")
        && projects == old(projects) && isDialogOpen == old(isDialogOpen)
        && newTitle == old(newTitle) && newDescription == old(newDescription)
      ensures !Blank(Js, old(newTitle)) ==>
        && toast == Success("Project created successfully!")
        && projects == old(projects) + [MockProject(NextProjectId(old(projects)), old(newTitle), old(newDescription), createdAt)]
        && !isDialogOpen && newTitle == "" && newDescription == ""
      ensures SequentialProjectIds(old(projects)) ==> SequentialProjectIds(projects)
    {
      if Trim(Js, newTitle) == [] {
        return Failure("Please enter a project title");
      }
      var project := MockProject(NextProjectId(projects), newTitle, newDescription, createdAt);
      projects := projects + [project];
      toast := Success("Project created successfully!");
      isDialogOpen := false;
      newTitle, newDescription := "", "";
    }
  }
}
