/** The record types of `src/bitbucket/repo.go`, as the Bitbucket Server REST API returns them.
    They carry no behaviour of their own. */
module BitbucketRepo {

  /** The `{href}` objects of a `self` link list. */
  datatype Href = Href(href: string)

  /** `Links`, and the anonymous `links` struct of users and pull requests. */
  datatype Links = Links(self: seq<Href>)

  /** `Link`: a hyperlink with an optional name (clone links are named `http`, `ssh`). */
  datatype Link = Link(href: string, name: string)

  datatype RepositoryLinks = RepositoryLinks(self: seq<Link>, clone: seq<Link>)

  datatype Project = Project(key: string, id: int, name: string, description: string)

  datatype Repository = Repository(
    slug: string,
    id: int,
    name: string,
    description: string,
    project: Project,
    links: RepositoryLinks)

  datatype User = User(id: int, name: string, displayName: string, email: string, links: Links)

  /** `Author`: a participant of a pull request, with its role and review status. */
  datatype Author = Author(user: User, role: string, hasApproved: bool, status: string)
}
