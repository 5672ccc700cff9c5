/**
 * The Dockerfile engine's settings: which docker binary to call, whether to put sudo in
 * front of it, the docker host, and whether to keep the written Dockerfile.
 */
module DockerFileProperties {
  import opened Wrappers
  import opened PropertySources

  const DOCKER_FILE_COMMAND := "docker.file.command"
  const DOCKER_FILE_SUDO_COMMAND := "docker.file.sudo.command"
  const DOCKER_FILE_USE_SUDO := "docker.file.use.sudo"
  const DOCKER_HOST := "docker.host"
  const DOCKER_FILE_KEEP := "docker.file.keepimage"

  /** The built-in value of every setting, as the text a property would hold. */
  const DEFAULTS: Properties := map[
    DOCKER_FILE_COMMAND := "docker",
    DOCKER_FILE_SUDO_COMMAND := "/usr/bin/sudo",
    DOCKER_FILE_USE_SUDO := "false",
    DOCKER_HOST := "",
    DOCKER_FILE_KEEP := "false"]

  datatype DockerFileSettings = DockerFileSettings(
    dockerHost: string,
    dockerFileCommand: string,
    sudoCommand: string,
    useSudo: bool,
    keepDockerFile: bool)

  /** The settings `reload` computes from the system properties and the loaded file. */
  function Resolve(system: Properties, file: Properties): DockerFileSettings {
    DockerFileSettings(
      OverriddenProperty(system, file, DOCKER_HOST, ""),
      OverriddenProperty(system, file, DOCKER_FILE_COMMAND, "docker"),
      OverriddenProperty(system, file, DOCKER_FILE_SUDO_COMMAND, "/usr/bin/sudo"),
      ParseBoolean(OverriddenProperty(system, file, DOCKER_FILE_USE_SUDO, "false")),
      ParseBoolean(OverriddenProperty(system, file, DOCKER_FILE_KEEP, "false")))
  }

  /** Reads the settings off one map that holds every key. */
  function FromLayered(m: Properties): DockerFileSettings
    requires DEFAULTS.Keys <= m.Keys
  {
    DockerFileSettings(
      m[DOCKER_HOST], m[DOCKER_FILE_COMMAND], m[DOCKER_FILE_SUDO_COMMAND],
      ParseBoolean(m[DOCKER_FILE_USE_SUDO]), ParseBoolean(m[DOCKER_FILE_KEEP]))
  }

  /** Every setting is what the defaults say, overridden by the file, overridden by the system. */
  lemma ResolveIsLayeredLookup(system: Properties, file: Properties)
    ensures DEFAULTS.Keys <= (DEFAULTS + file + system).Keys
    ensures Resolve(system, file) == FromLayered(DEFAULTS + file + system)
  {
    var m := DEFAULTS + file + system;
    PriorityIsLayering(system, file, DOCKER_HOST, "");
    PriorityIsLayering(system, file, DOCKER_FILE_COMMAND, "docker");
    PriorityIsLayering(system, file, DOCKER_FILE_SUDO_COMMAND, "/usr/bin/sudo");
    PriorityIsLayering(system, file, DOCKER_FILE_USE_SUDO, "false");
    PriorityIsLayering(system, file, DOCKER_FILE_KEEP, "false");
  }

  /** Without a configuration file or system properties: plain `docker`, no sudo, no host, no keep. */
  lemma UnconfiguredDefaults()
    ensures Resolve(map[], map[]) == DockerFileSettings("", "docker", "/usr/bin/sudo", false, false)
  {
    ParseBooleanSpellings("false");
  }

  /** Once every key is a system property, the configuration file no longer matters. */
  lemma SystemPropertiesOverrideFile(system: Properties, file1: Properties, file2: Properties)
    requires DEFAULTS.Keys <= system.Keys
    ensures Resolve(system, file1) == Resolve(system, file2)
  {
  }

  /** Entries of the file under other keys have no effect. */
  lemma OnlySettingKeysMatter(system: Properties, file: Properties)
    ensures Resolve(system, file) == Resolve(system, map k | k in file && k in DEFAULTS :: file[k])
  {
  }

  /** `DockerFilePropertyLoader`, the engine-wide holder of the settings. */
  class DockerFilePropertyLoader {
    var dockerHost: string
    var dockerFileCommand: string
    var sudoCommand: string
    var useSudo: bool
    var keepDockerFile: bool
    var properties: Properties

    function Settings(): DockerFileSettings
      reads this
    {
      DockerFileSettings(dockerHost, dockerFileCommand, sudoCommand, useSudo, keepDockerFile)
    }

    /** The singleton is built by loading the settings once. */
    constructor (system: Properties, file: Option<Properties>)
      ensures properties == Loaded(file)
      ensures Settings() == Resolve(system, properties)
    {
      dockerHost, dockerFileCommand, sudoCommand, useSudo := "", "", "", false;
      keepDockerFile := false;
      properties := map[];
      new;
      Reload(system, file);
    }

    /**
     * `reload`: starts from empty properties, loads the configuration resource (`file`,
     * `None` when it is missing) and recomputes every setting from it and the system
     * properties; nothing of the previous settings survives.
     */
    method Reload(system: Properties, file: Option<Properties>)
      modifies this
      ensures properties == Loaded(file)
      ensures Settings() == Resolve(system, properties)
    {
      properties := map[];
      properties := Loaded(file);
      dockerFileCommand := OverriddenProperty(system, properties, DOCKER_FILE_COMMAND, "docker");
      sudoCommand := OverriddenProperty(system, properties, DOCKER_FILE_SUDO_COMMAND, "/usr/bin/sudo");
      useSudo := ParseBoolean(OverriddenProperty(system, properties, DOCKER_FILE_USE_SUDO, "false"));
      dockerHost := OverriddenProperty(system, properties, DOCKER_HOST, "");
      keepDockerFile := ParseBoolean(OverriddenProperty(system, properties, DOCKER_FILE_KEEP, "false"));
    }

    // Setters: a value set here holds until the next `reload`, which recomputes every field.

    method SetDockerHost(v: string)
      modifies this`dockerHost
      ensures Settings() == old(Settings()).(dockerHost := v)
    {
      dockerHost := v;
    }

    method SetDockerFileCommand(v: string)
      modifies this`dockerFileCommand
      ensures Settings() == old(Settings()).(dockerFileCommand := v)
    {
      dockerFileCommand := v;
    }

    method SetSudoCommand(v: string)
      modifies this`sudoCommand
      ensures Settings() == old(Settings()).(sudoCommand := v)
    {
      sudoCommand := v;
    }

    method SetUseSudo(v: bool)
      modifies this`useSudo
      ensures Settings() == old(Settings()).(useSudo := v)
    {
      useSudo := v;
    }

    method SetKeepDockerFile(v: bool)
      modifies this`keepDockerFile
      ensures Settings() == old(Settings()).(keepDockerFile := v)
    {
      keepDockerFile := v;
    }
  }
}
