/**
 * The records of src/lib/types.ts.  `username` and `introTagline` are the two
 * optional fields that the admin editor and the per-user landing page read and
 * write on a person.
 */
module Types {
  import opened Wrappers

  /** `label` is a reserved word in Dafny, so the label field is called `caption`. */
  datatype Link = Link(caption: string, url: string)

  datatype Social = Social(caption: string, url: string, icon: string)

  /** `dateEnded == None` marks a current (ongoing) project. */
  datatype Project = Project(
    id: string,
    name: string,
    dateStarted: string,
    dateEnded: Option<string>,
    description: string,
    links: seq<Link>)

  datatype Person = Person(
    id: string,
    name: string,
    photo: string,
    bio: string,
    socials: seq<Social>,
    currentProjects: seq<Project>,
    pastProjects: seq<Project>,
    username: Option<string>,
    introTagline: Option<string>)
}
