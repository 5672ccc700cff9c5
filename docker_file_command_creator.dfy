/**
 * `DockerFileCommandCreator`: the argument vector of every docker invocation the
 * Dockerfile engine makes, with the user's extra options taken from generic information.
 */
module DockerFileCommands {
  import opened JavaText
  import opened ProcessModel
  import opened ScriptBindings
  import opened DockerFileProperties

  const BUILD_ARGUMENT := "build"
  const IMAGE_TAG_OPTION_ARGUMENT := "-t"
  const CONTAINER_NAME_OPTION_ARGUMENT := "--name"
  const FILENAME := "Dockerfile"
  const RUN_ARGUMENT := "run"
  const STOP_ARGUMENT := "stop"
  const RM_ARGUMENT := "rm"
  const RMI_ARGUMENT := "rmi"

  const DOCKER_FILE_COMMANDLINE_OPTIONS_SPLIT_REGEX_DEFAULT := " "
  const DOCKER_BUILD_COMMANDLINE_OPTIONS_KEY := "docker-build-options"
  const DOCKER_RUN_COMMANDLINE_OPTIONS_KEY := "docker-run-options"
  const DOCKER_STOP_COMMANDLINE_OPTIONS_KEY := "docker-stop-options"
  const DOCKER_RMI_COMMANDLINE_OPTIONS_KEY := "docker-rmi-options"
  const DOCKER_FILE_COMMANDLINE_OPTIONS_SPLIT_REGEX_KEY := "docker-file-options-split-regex"

  // ---------------------------------------------------------------------------------
  // Options from generic information
  // ---------------------------------------------------------------------------------

  /** `extractGenericInfo`: the generic-information map, or an empty one when it is absent or not a map. */
  function ExtractGenericInfo(b: Bindings): (r: map<string, string>)
    ensures GENERIC_INFO_BINDING_NAME !in b ==> r == map[]
    ensures GENERIC_INFO_BINDING_NAME in b && !b[GENERIC_INFO_BINDING_NAME].Dict? ==> r == map[]
  {
    if GENERIC_INFO_BINDING_NAME in b && b[GENERIC_INFO_BINDING_NAME].Dict?
    then b[GENERIC_INFO_BINDING_NAME].entries
    else map[]
  }

  /** The delimiter the options are split on. */
  function SplitDelimiter(gi: map<string, string>): string {
    if DOCKER_FILE_COMMANDLINE_OPTIONS_SPLIT_REGEX_KEY in gi
    then gi[DOCKER_FILE_COMMANDLINE_OPTIONS_SPLIT_REGEX_KEY]
    else DOCKER_FILE_COMMANDLINE_OPTIONS_SPLIT_REGEX_DEFAULT
  }

  /** The options configured under `keyName` in the generic-information map `gi`. */
  function OptionsIn(gi: map<string, string>, keyName: string): seq<string> {
    if keyName in gi then Split(gi[keyName], SplitDelimiter(gi)) else []
  }

  /** `getDockerCommandOptions`: the value under `keyName`, split on the delimiter; none when absent. */
  function DockerCommandOptions(b: Bindings, keyName: string): seq<string> {
    OptionsIn(ExtractGenericInfo(b), keyName)
  }

  /** Missing or ill-typed generic information, or a missing key, gives no options. */
  lemma NoOptionsWithoutKey(b: Bindings, keyName: string)
    requires keyName !in ExtractGenericInfo(b)
    ensures DockerCommandOptions(b, keyName) == []
  {
  }

  /**
   * With a non-empty delimiter, no option holds the delimiter, and joining the options with
   * it gives back the configured value unless that value ends with the delimiter.
   */
  lemma OptionsRejoin(gi: map<string, string>, keyName: string)
    requires keyName in gi && SplitDelimiter(gi) != ""
    ensures forall k :: 0 <= k < |OptionsIn(gi, keyName)| ==> !Contains(OptionsIn(gi, keyName)[k], SplitDelimiter(gi))
    ensures !EndsWith(gi[keyName], SplitDelimiter(gi)) ==> Join(OptionsIn(gi, keyName), SplitDelimiter(gi)) == gi[keyName]
  {
    SplitTokensAndJoin(gi[keyName], SplitDelimiter(gi));
  }

  /** Options written as tokens joined by the delimiter come back as those tokens. */
  lemma OptionsOfJoin(gi: map<string, string>, keyName: string, xs: seq<string>, d: string)
    requires d == SplitDelimiter(gi) && d != ""
    requires keyName in gi && gi[keyName] == Join(xs, d)
    requires |xs| >= 1 && xs[|xs| - 1] != ""
    requires forall k :: 0 <= k < |xs| ==> d[0] !in xs[k]
    ensures OptionsIn(gi, keyName) == xs
  {
    SplitOfJoin(xs, d);
  }

  /** An empty option value is passed on as one empty argument. */
  lemma EmptyValueGivesEmptyArgument(gi: map<string, string>, keyName: string)
    requires keyName in gi && gi[keyName] == ""
    ensures OptionsIn(gi, keyName) == [""]
  {
  }

  /** Generic information handed over as a map is read as it is. */
  lemma OptionsFromGenericInfo(gi: map<string, string>, keyName: string)
    ensures DockerCommandOptions(map[GENERIC_INFO_BINDING_NAME := Dict(gi)], keyName) == OptionsIn(gi, keyName)
  {
  }

  /** With the default delimiter, "-t -d" becomes the two options "-t" and "-d". */
  lemma DefaultDelimiterExample()
    ensures OptionsIn(map[DOCKER_RUN_COMMANDLINE_OPTIONS_KEY := "-t -d"], DOCKER_RUN_COMMANDLINE_OPTIONS_KEY) == ["-t", "-d"]
  {
    var gi := map[DOCKER_RUN_COMMANDLINE_OPTIONS_KEY := "-t -d"];
    assert SplitDelimiter(gi) == " ";
    assert Join(["-t", "-d"], " ") == "-t -d";
    OptionsOfJoin(gi, DOCKER_RUN_COMMANDLINE_OPTIONS_KEY, ["-t", "-d"], " ");
  }

  /**
   * A multi-character delimiter such as "!SPLIT!" keeps spaces inside an option, as in
   * "/bin/sh!SPLIT!-c!SPLIT!echo 'my test message'".
   */
  lemma CustomDelimiterExample(keyName: string, command: string)
    requires keyName != DOCKER_FILE_COMMANDLINE_OPTIONS_SPLIT_REGEX_KEY
    requires command != "" && '!' !in command
    ensures OptionsIn(map[
        DOCKER_FILE_COMMANDLINE_OPTIONS_SPLIT_REGEX_KEY := "!SPLIT!",
        keyName := "/bin/sh" + "!SPLIT!" + "-c" + "!SPLIT!" + command],
      keyName) == ["/bin/sh", "-c", command]
  {
    var d := "!SPLIT!";
    var gi := map[DOCKER_FILE_COMMANDLINE_OPTIONS_SPLIT_REGEX_KEY := d, keyName := "/bin/sh" + d + "-c" + d + command];
    var xs := ["/bin/sh", "-c", command];
    assert SplitDelimiter(gi) == d;
    ShellCommandJoined(xs, d, command);
    assert forall k :: 0 <= k < |xs| ==> '!' !in xs[k];
    OptionsOfJoin(gi, keyName, xs, d);
  }

  lemma ShellCommandJoined(xs: seq<string>, d: string, command: string)
    requires xs == ["/bin/sh", "-c", command]
    ensures Join(xs, d) == "/bin/sh" + d + "-c" + d + command
  {
    assert xs[1..][1..] == [command];
    assert Join(xs[1..], d) == "-c" + d + command;
  }

  // ---------------------------------------------------------------------------------
  // Argument vectors
  // ---------------------------------------------------------------------------------

  /** The sudo command when configured, then the docker command. */
  function Prefix(cfg: DockerFileSettings): Argv {
    (if cfg.useSudo then [cfg.sudoCommand] else []) + [cfg.dockerFileCommand]
  }

  /** `docker build <options> -t <image> .` */
  function BuildCommand(cfg: DockerFileSettings, imageTagName: string, b: Bindings): Argv {
    Prefix(cfg) + [BUILD_ARGUMENT] + DockerCommandOptions(b, DOCKER_BUILD_COMMANDLINE_OPTIONS_KEY)
      + [IMAGE_TAG_OPTION_ARGUMENT, imageTagName, "."]
  }

  /** `docker run <options> --name <container> <image>` */
  function RunCommand(cfg: DockerFileSettings, containerTagName: string, imageTagName: string, b: Bindings): Argv {
    Prefix(cfg) + [RUN_ARGUMENT] + DockerCommandOptions(b, DOCKER_RUN_COMMANDLINE_OPTIONS_KEY)
      + [CONTAINER_NAME_OPTION_ARGUMENT, containerTagName, imageTagName]
  }

  /** `docker stop <options> <container>` */
  function StopCommand(cfg: DockerFileSettings, containerTagName: string, b: Bindings): Argv {
    Prefix(cfg) + [STOP_ARGUMENT] + DockerCommandOptions(b, DOCKER_STOP_COMMANDLINE_OPTIONS_KEY)
      + [containerTagName]
  }

  /** `docker rm <options> <container>`, the options read from the rmi key. */
  function RemoveCommand(cfg: DockerFileSettings, containerTagName: string, b: Bindings): Argv {
    Prefix(cfg) + [RM_ARGUMENT] + DockerCommandOptions(b, DOCKER_RMI_COMMANDLINE_OPTIONS_KEY)
      + [containerTagName]
  }

  /** `docker rmi <image>` */
  function RemoveImageCommand(cfg: DockerFileSettings, imageTagName: string): Argv {
    Prefix(cfg) + [RMI_ARGUMENT, imageTagName]
  }

  /** The sudo command comes first exactly when sudo is configured, directly followed by docker. */
  lemma PrefixShape(cfg: DockerFileSettings)
    ensures |Prefix(cfg)| == if cfg.useSudo then 2 else 1
    ensures cfg.useSudo ==> Prefix(cfg)[0] == cfg.sudoCommand && Prefix(cfg)[1] == cfg.dockerFileCommand
    ensures !cfg.useSudo ==> Prefix(cfg)[0] == cfg.dockerFileCommand
  {
  }

  /** The command line a process runs: the prefix, the verb, then the verb's arguments. */
  predicate Invokes(c: Argv, cfg: DockerFileSettings, verb: string, args: Argv) {
    c == Prefix(cfg) + [verb] + args
  }

  /**
   * The five layouts with every verb, flag and option key written as the literal string the
   * Java constants hold, so the named constants above cannot drift from them unnoticed. The
   * layout of `rm` takes its options from "docker-rmi-options", the key of the image
   * removal, not from a key of its own.
   */
  lemma CommandLayouts(cfg: DockerFileSettings, image: string, container: string, b: Bindings)
    ensures Invokes(BuildCommand(cfg, image, b), cfg, "build",
      DockerCommandOptions(b, "docker-build-options") + ["-t", image, "."])
    ensures Invokes(RunCommand(cfg, container, image, b), cfg, "run",
      DockerCommandOptions(b, "docker-run-options") + ["--name", container, image])
    ensures Invokes(StopCommand(cfg, container, b), cfg, "stop",
      DockerCommandOptions(b, "docker-stop-options") + [container])
    ensures Invokes(RemoveCommand(cfg, container, b), cfg, "rm",
      DockerCommandOptions(b, "docker-rmi-options") + [container])
    ensures Invokes(RemoveImageCommand(cfg, image), cfg, "rmi", [image])
  {
  }

  /** The verb sits right after the prefix, so each command is told apart by that one argument. */
  lemma VerbFollowsPrefix(cfg: DockerFileSettings, image: string, container: string, b: Bindings)
    ensures BuildCommand(cfg, image, b)[|Prefix(cfg)|] == "build"
    ensures RunCommand(cfg, container, image, b)[|Prefix(cfg)|] == "run"
    ensures StopCommand(cfg, container, b)[|Prefix(cfg)|] == "stop"
    ensures RemoveCommand(cfg, container, b)[|Prefix(cfg)|] == "rm"
    ensures RemoveImageCommand(cfg, image)[|Prefix(cfg)|] == "rmi"
    ensures RemoveImageCommand(cfg, image)[|Prefix(cfg)| + 1] == image
  {
  }

  // ---------------------------------------------------------------------------------
  // Builders: the argument list is grown one `add` / `addAll` at a time
  // ---------------------------------------------------------------------------------

  /** `addSudoAndDockerFileCommand`: appends the sudo command when configured, then docker. */
  method AddSudoAndDockerFileCommand(cfg: DockerFileSettings, command: Argv) returns (r: Argv)
    ensures r == command + Prefix(cfg)
  {
    r := command;
    if cfg.useSudo {
      r := r + [cfg.sudoCommand];
    }
    r := r + [cfg.dockerFileCommand];
  }

  method CreateDockerBuildExecutionCommand(cfg: DockerFileSettings, imageTagName: string, b: Bindings)
    returns (command: Argv)
    ensures command == BuildCommand(cfg, imageTagName, b)
  {
    command := AddSudoAndDockerFileCommand(cfg, []);
    command := command + [BUILD_ARGUMENT];
    command := command + DockerCommandOptions(b, DOCKER_BUILD_COMMANDLINE_OPTIONS_KEY);
    command := command + [IMAGE_TAG_OPTION_ARGUMENT];
    command := command + [imageTagName];
    command := command + ["."];
  }

  method CreateDockerRunExecutionCommand(cfg: DockerFileSettings, containerTagName: string, imageTagName: string, b: Bindings)
    returns (command: Argv)
    ensures command == RunCommand(cfg, containerTagName, imageTagName, b)
  {
    command := AddSudoAndDockerFileCommand(cfg, []);
    command := command + [RUN_ARGUMENT];
    command := command + DockerCommandOptions(b, DOCKER_RUN_COMMANDLINE_OPTIONS_KEY);
    command := command + [CONTAINER_NAME_OPTION_ARGUMENT];
    command := command + [containerTagName];
    command := command + [imageTagName];
  }

  method CreateDockerStopExecutionCommand(cfg: DockerFileSettings, containerTagName: string, b: Bindings)
    returns (command: Argv)
    ensures command == StopCommand(cfg, containerTagName, b)
  {
    command := AddSudoAndDockerFileCommand(cfg, []);
    command := command + [STOP_ARGUMENT];
    command := command + DockerCommandOptions(b, DOCKER_STOP_COMMANDLINE_OPTIONS_KEY);
    command := command + [containerTagName];
  }

  method CreateDockerRemoveExecutionCommand(cfg: DockerFileSettings, containerTagName: string, b: Bindings)
    returns (command: Argv)
    ensures command == RemoveCommand(cfg, containerTagName, b)
  {
    command := AddSudoAndDockerFileCommand(cfg, []);
    command := command + [RM_ARGUMENT];
    command := command + DockerCommandOptions(b, DOCKER_RMI_COMMANDLINE_OPTIONS_KEY);
    command := command + [containerTagName];
  }

  method CreateDockerRemoveImage(cfg: DockerFileSettings, imageTagName: string) returns (command: Argv)
    ensures command == RemoveImageCommand(cfg, imageTagName)
  {
    command := AddSudoAndDockerFileCommand(cfg, []);
    command := command + [RMI_ARGUMENT];
    command := command + [imageTagName];
  }
}
