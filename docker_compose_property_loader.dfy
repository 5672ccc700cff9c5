/**
 * The docker-compose engine's settings. Unlike the Dockerfile engine, the compose binary
 * depends on the operating system, and the compose file is kept unless configured
 * otherwise.
 */
module DockerComposeProperties {
  import opened Wrappers
  import opened JavaText
  import opened PropertySources

  const DOCKER_COMPOSE_COMMAND := "docker.compose.command"
  const DOCKER_COMPOSE_COMMAND_WINDOWS := "docker.compose.command.windows"
  const DOCKER_COMPOSE_SUDO_COMMAND := "docker.compose.sudo.command"
  const DOCKER_COMPOSE_USE_SUDO := "docker.compose.use.sudo"
  const DOCKER_HOST := "docker.host"
  const DOCKER_FILE_KEEP := "docker.file.keep"

  datatype DockerComposeSettings = DockerComposeSettings(
    dockerHost: string,
    dockerComposeCommand: string,
    sudoCommand: string,
    useSudo: bool,
    keepDockerFile: bool)

  /** The `os.name` test: the lower-cased name mentions "windows" or "mac os". */
  predicate IsMacOrWindows(osName: string) {
    Contains(ToLower(osName), "windows") || Contains(ToLower(osName), "mac os")
  }

  /** The settings `reload` computes from the system properties, the loaded file and `os.name`. */
  function Resolve(system: Properties, file: Properties, osName: string): DockerComposeSettings {
    DockerComposeSettings(
      OverriddenProperty(system, file, DOCKER_HOST, ""),
      if IsMacOrWindows(osName)
      then OverriddenProperty(system, file, DOCKER_COMPOSE_COMMAND_WINDOWS, "docker-compose")
      else OverriddenProperty(system, file, DOCKER_COMPOSE_COMMAND, "/usr/local/bin/docker-compose"),
      OverriddenProperty(system, file, DOCKER_COMPOSE_SUDO_COMMAND, "/usr/bin/sudo"),
      ParseBoolean(OverriddenProperty(system, file, DOCKER_COMPOSE_USE_SUDO, "false")),
      ParseBoolean(OverriddenProperty(system, file, DOCKER_FILE_KEEP, "true")))
  }

  /**
   * Only the key of the running platform is consulted for the compose binary: the other
   * platform's entry may hold anything.
   */
  lemma CommandKeyFollowsPlatform(system: Properties, file: Properties, osName: string, other: string)
    ensures IsMacOrWindows(osName) ==>
      Resolve(system, file, osName) == Resolve(system[DOCKER_COMPOSE_COMMAND := other], file[DOCKER_COMPOSE_COMMAND := other], osName)
    ensures !IsMacOrWindows(osName) ==>
      Resolve(system, file, osName) == Resolve(system[DOCKER_COMPOSE_COMMAND_WINDOWS := other], file[DOCKER_COMPOSE_COMMAND_WINDOWS := other], osName)
  {
  }

  /** Without any configuration: the platform's compose binary, no sudo, no host, and keep the file. */
  lemma UnconfiguredDefaults(osName: string)
    ensures Resolve(map[], map[], osName) == DockerComposeSettings(
      "",
      if IsMacOrWindows(osName) then "docker-compose" else "/usr/local/bin/docker-compose",
      "/usr/bin/sudo", false, true)
  {
    ParseBooleanSpellings("false");
    ParseBooleanSpellings("true");
  }

  /** Typical `os.name` values: Windows and macOS take the short command, Linux the full path. */
  lemma PlatformExamples()
    ensures IsMacOrWindows("Windows 10")
    ensures IsMacOrWindows("Mac OS X")
    ensures !IsMacOrWindows("Linux")
  {
    assert ToLower("Windows 10")[..7] == "windows";
    assert OccursAt(ToLower("Windows 10"), "windows", 0);
    assert ToLower("Mac OS X")[..6] == "mac os";
    assert OccursAt(ToLower("Mac OS X"), "mac os", 0);
  }

  /** The configuration file of the test resources, as far as its assertions reveal it. */
  const TEST_FILE: Properties := map[
    DOCKER_COMPOSE_COMMAND := "test-compose",
    DOCKER_COMPOSE_COMMAND_WINDOWS := "test-compose-win",
    DOCKER_COMPOSE_SUDO_COMMAND := "test-sudo",
    DOCKER_COMPOSE_USE_SUDO := "true",
    DOCKER_HOST := "test-test",
    DOCKER_FILE_KEEP := "false"]

  /** With nothing set on the JVM, every setting comes from the file. */
  lemma FileValuesApply(osName: string)
    ensures Resolve(map[], TEST_FILE, osName) == DockerComposeSettings(
      "test-test",
      if IsMacOrWindows(osName) then "test-compose-win" else "test-compose",
      "test-sudo", true, false)
  {
    ParseBooleanSpellings("true");
    ParseBooleanSpellings("false");
  }

  /** A system property replaces its own key only. */
  lemma SystemPropertyOverridesOneKey(osName: string)
    ensures Resolve(map[DOCKER_COMPOSE_SUDO_COMMAND := "test2-sudo"], TEST_FILE, osName).sudoCommand == "test2-sudo"
    ensures Resolve(map[DOCKER_COMPOSE_SUDO_COMMAND := "test2-sudo"], TEST_FILE, osName).dockerHost == "test-test"
  {
  }

  /** `DockerComposePropertyLoader`, the engine-wide holder of the settings. */
  class DockerComposePropertyLoader {
    var dockerHost: string
    var dockerComposeCommand: string
    var sudoCommand: string
    var useSudo: bool
    var keepDockerFile: bool
    var properties: Properties

    function Settings(): DockerComposeSettings
      reads this
    {
      DockerComposeSettings(dockerHost, dockerComposeCommand, sudoCommand, useSudo, keepDockerFile)
    }

    /** The singleton is built by loading the settings once. */
    constructor (system: Properties, file: Option<Properties>, osName: string)
      ensures properties == Loaded(file)
      ensures Settings() == Resolve(system, properties, osName)
    {
      dockerHost, dockerComposeCommand, sudoCommand, useSudo := "", "", "", false;
      keepDockerFile := false;
      properties := map[];
      new;
      Reload(system, file, osName);
    }

    /**
     * `reload`: starts from empty properties, loads the configuration resource (`file`,
     * `None` when it is missing) and recomputes every setting; `osName` is the `os.name`
     * system property.
     */
    method Reload(system: Properties, file: Option<Properties>, osName: string)
      modifies this
      ensures properties == Loaded(file)
      ensures Settings() == Resolve(system, properties, osName)
    {
      properties := map[];
      properties := Loaded(file);
      var isMacOrWindows := Contains(ToLower(osName), "windows") || Contains(ToLower(osName), "mac os");
      dockerComposeCommand := if isMacOrWindows
        then OverriddenProperty(system, properties, DOCKER_COMPOSE_COMMAND_WINDOWS, "docker-compose")
        else OverriddenProperty(system, properties, DOCKER_COMPOSE_COMMAND, "/usr/local/bin/docker-compose");
      sudoCommand := OverriddenProperty(system, properties, DOCKER_COMPOSE_SUDO_COMMAND, "/usr/bin/sudo");
      useSudo := ParseBoolean(OverriddenProperty(system, properties, DOCKER_COMPOSE_USE_SUDO, "false"));
      dockerHost := OverriddenProperty(system, properties, DOCKER_HOST, "");
      keepDockerFile := ParseBoolean(OverriddenProperty(system, properties, DOCKER_FILE_KEEP, "true"));
    }

    // Setters: a value set here holds until the next `reload`, which recomputes every field.

    method SetDockerHost(v: string)
      modifies this`dockerHost
      ensures Settings() == old(Settings()).(dockerHost := v)
    {
      dockerHost := v;
    }

    method SetDockerComposeCommand(v: string)
      modifies this`dockerComposeCommand
      ensures Settings() == old(Settings()).(dockerComposeCommand := v)
    {
      dockerComposeCommand := v;
    }

    method SetSudoCommand(v: string)
      modifies this`sudoCommand
      ensures Settings() == old(Settings()).(sudoCommand := v)
    {
      sudoCommand := v;
    }

    method SetUseSudo(v: bool)
      modifies this`useSudo
      ensures Settings() == old(Settings()).(useSudo := v)
    {
      useSudo := v;
    }

    method SetKeepDockerFile(v: bool)
      modifies this`keepDockerFile
      ensures Settings() == old(Settings()).(keepDockerFile := v)
    {
      keepDockerFile := v;
    }
  }
}
