/**
 * The parts of the Hudson/Jenkins object model the plugin reads, as values:
 * a build with its causes and result, the current user, a project.
 */
module Hudson {
  import opened Wrappers

  /** `hudson.model.Cause`: only the upstream cause carries data the plugin reads. */
  datatype Cause =
    | UpstreamCause(upstreamProject: string, upstreamBuild: int)
    | UserCause(userName: Option<string>)
    | OtherCause(description: string)

  /** `hudson.model.CauseAction`: the causes recorded on a build, in order. */
  datatype CauseAction = CauseAction(causes: seq<Cause>)

  /** `hudson.model.Result`, in the order of its ordinals. */
  datatype BuildResult = SUCCESS | UNSTABLE | FAILURE | NOT_BUILT | ABORTED

  function Ordinal(r: BuildResult): nat
  {
    match r
    case SUCCESS => 0
    case UNSTABLE => 1
    case FAILURE => 2
    case NOT_BUILT => 3
    case ABORTED => 4
  }

  /** `Result.isWorseThan`: a strictly larger ordinal. */
  predicate IsWorseThan(r: BuildResult, than: BuildResult)
  {
    Ordinal(r) > Ordinal(than)
  }

  /** `hudson.model.User`: only the id is read. */
  datatype User = User(id: Option<string>)

  /**
   * `AbstractBuild` as far as the plugin reads it: the full name of its
   * job, its number, its start time in epoch milliseconds, its URL relative
   * to the Jenkins root, the `CauseAction`s attached to it (in the order
   * `getActions(CauseAction.class)` lists them, `None` for a null list) and
   * its result (`None` while it is still running).
   */
  datatype Build = Build(
    fullName: string,
    number: int,
    timestampMillis: int,
    url: string,
    causeActions: Option<seq<CauseAction>>,
    result: Option<BuildResult>)

  /** `AbstractProject`: its name and whether an `ArtifactoryProjectAction` is already attached. */
  datatype Project = Project(fullName: string, hasArtifactoryProjectAction: bool)

  /** A publisher, build wrapper or builder configured on a project: its
      concrete class and its settings, which the plugin does not look into. */
  datatype Component = Component(className: string, settings: string)

  /** A `Class<T>` used as a filter: the names of `T` and of all its subclasses. */
  datatype ComponentType = ComponentType(classNames: set<string>)

  /** `Class.isInstance`. */
  predicate IsInstance(t: ComponentType, c: Component)
  {
    c.className in t.classNames
  }

  /** The three configured lists of a project, in configuration order. */
  datatype ProjectConfiguration = ProjectConfiguration(
    publishers: seq<Component>,
    buildWrappers: seq<Component>,
    builders: seq<Component>)
}
