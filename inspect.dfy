/** `inspect container|image` (cmd/inspect.go): a read-only report over the two
    configuration files and the running check. The JSON printing is not modelled;
    the result is the list printObj would marshal. */
module Inspect {
  import opened Base
  import opened Config
  import opened Supervisor

  datatype ContainerDetailsState = ContainerDetailsState(status: string, startedAt: string)

  /** ContainerDetails; `created` is never set by the command and stays "". */
  datatype ContainerDetails = ContainerDetails(id: string, created: string, state: ContainerDetailsState, config: Config)

  datatype ImageDetails = ImageDetails(id: string, config: Config)

  datatype Listing = Containers(containers: seq<ContainerDetails>) | Images(images: seq<ImageDetails>)

  predicate ValidTarget(args: seq<string>) {
    |args| > 0 && (args[0] == "container" || args[0] == "image")
  }

  /** InspectCmd.Run over a snapshot of the files and the live processes. */
  function Inspect(args: seq<string>, image: Option<Document>, container: Option<Document>, pidFile: Option<string>, live: set<int>): (r: Result<Listing>)
    ensures !ValidTarget(args) <==> r == Err(InspectUsage)
    ensures r.Ok? ==> (r.value.Containers? <==> args[0] == "container")
    ensures ValidTarget(args) && args[0] == "container" && container.None? ==> r == Ok(Containers([]))
    ensures ValidTarget(args) && args[0] == "image" && image.None? ==> r == Ok(Images([]))
    ensures ValidTarget(args) && args[0] == "container" && container == Some(Unparsable) ==> r == Err(Wrap("parse container config", JsonSyntax))
    ensures ValidTarget(args) && args[0] == "image" && image == Some(Unparsable) ==> r == Err(Wrap("parse image config", JsonSyntax))
    ensures ValidTarget(args) && args[0] == "container" && container.Some? && container.value.Doc? ==>
      r == Ok(Containers([ContainerDetails(container.value.file.container, "",
             ContainerDetailsState(if IsContainerRunning(pidFile, live) then "running" else "exited", container.value.file.created),
             container.value.file.config)]))
    ensures ValidTarget(args) && args[0] == "image" && image.Some? && image.value.Doc? ==>
      r == Ok(Images([ImageDetails(image.value.file.container, image.value.file.config)]))
    ensures r.Ok? && r.value.Containers? && r.value.containers != [] ==>
      && container.Some? && container.value.Doc?
      && r.value.containers == [ContainerDetails(container.value.file.container, "",
           ContainerDetailsState(if IsContainerRunning(pidFile, live) then "running" else "exited", container.value.file.created),
           container.value.file.config)]
    ensures r.Ok? && r.value.Images? && r.value.images != [] ==>
      && image.Some? && image.value.Doc?
      && r.value.images == [ImageDetails(image.value.file.container, image.value.file.config)]
  {
    if |args| == 0 then Err(InspectUsage)
    else if args[0] == "container" then
      match container
      case None => Ok(Containers([]))
      case Some(Unparsable) => Err(Wrap("parse container config", JsonSyntax))
      case Some(Doc(file)) =>
        var state := if IsContainerRunning(pidFile, live) then "running" else "exited";
        Ok(Containers([ContainerDetails(file.container, "", ContainerDetailsState(state, file.created), file.config)]))
    else if args[0] == "image" then
      match image
      case None => Ok(Images([]))
      case Some(Unparsable) => Err(Wrap("parse image config", JsonSyntax))
      case Some(Doc(file)) => Ok(Images([ImageDetails(file.container, file.config)]))
    else Err(InspectUsage)
  }

  /** The reported status is "running" exactly when the running check holds, and
      "exited" otherwise. */
  lemma StatusIsRunningCheck(args: seq<string>, image: Option<Document>, container: Option<Document>, pidFile: Option<string>, live: set<int>)
    requires ValidTarget(args) && args[0] == "container" && container.Some? && container.value.Doc?
    ensures Inspect(args, image, container, pidFile, live).Ok?
    ensures |Inspect(args, image, container, pidFile, live).value.containers| == 1
    ensures Inspect(args, image, container, pidFile, live).value.containers[0].state.status == "running" <==> IsContainerRunning(pidFile, live)
    ensures Inspect(args, image, container, pidFile, live).value.containers[0].state.status in {"running", "exited"}
  {
  }
}
