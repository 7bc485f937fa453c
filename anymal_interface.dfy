/**
 * Building the ANYmal MPC interfaces: the configuration folder and task
 * file of a named configuration, and the interface assembled from the
 * model factories. The package lookup of the build system is supplied as a
 * function from package name to installation path.
 */
module AnymalInterfaces {
  import opened Wrappers
  import opened AnymalModels

  const MpcPackage: string := "ocs2_anymal_mpc"
  const LoopshapingPackage: string := "ocs2_anymal_loopshaping_mpc"
  const ConfigDirectory: string := "/config/"
  const TaskFileName: string := "/task.info"

  /**
   * The folder of a configuration inside a package: the package's path,
   * the config directory, then the configuration's name.
   */
  function ConfigFolderIn(getPath: string -> string, package: string, configName: string): (folder: string)
    ensures |folder| == |getPath(package)| + |ConfigDirectory| + |configName|
    ensures folder[..|getPath(package)|] == getPath(package)
    ensures folder[|getPath(package)|..|getPath(package)| + |ConfigDirectory|] == ConfigDirectory
    ensures folder[|folder| - |configName|..] == configName
  {
    var folder := getPath(package) + ConfigDirectory + configName;
    assert folder[..|getPath(package)|] == getPath(package);
    folder
  }

  /** The task file inside a configuration folder. */
  function TaskFileIn(folder: string): (path: string)
    ensures |path| == |folder| + |TaskFileName|
    ensures path[..|folder|] == folder
    ensures path[|folder|..] == TaskFileName
  {
    folder + TaskFileName
  }

  /** The folder of a configuration of the MPC package (getConfigFolder). */
  function GetConfigFolder(getPath: string -> string, configName: string): (folder: string)
    ensures |folder| == |getPath(MpcPackage)| + |ConfigDirectory| + |configName|
    ensures folder[..|getPath(MpcPackage)|] == getPath(MpcPackage)
    ensures folder[|getPath(MpcPackage)|..|getPath(MpcPackage)| + |ConfigDirectory|] == ConfigDirectory
    ensures folder[|folder| - |configName|..] == configName
  {
    ConfigFolderIn(getPath, MpcPackage, configName)
  }

  /** The task file of a configuration of the MPC package (getTaskFilePath). */
  function GetTaskFilePath(getPath: string -> string, configName: string): (path: string)
    ensures |path| >= |TaskFileName|
    ensures path[..|path| - |TaskFileName|] == GetConfigFolder(getPath, configName)
    ensures path[|path| - |TaskFileName|..] == TaskFileName
  {
    TaskFileIn(GetConfigFolder(getPath, configName))
  }

  /** The folder of a configuration of the loopshaping package (getConfigFolderLoopshaping). */
  function GetConfigFolderLoopshaping(getPath: string -> string, configName: string): (folder: string)
    ensures |folder| == |getPath(LoopshapingPackage)| + |ConfigDirectory| + |configName|
    ensures folder[..|getPath(LoopshapingPackage)|] == getPath(LoopshapingPackage)
    ensures folder[|getPath(LoopshapingPackage)|..|getPath(LoopshapingPackage)| + |ConfigDirectory|] == ConfigDirectory
    ensures folder[|folder| - |configName|..] == configName
  {
    ConfigFolderIn(getPath, LoopshapingPackage, configName)
  }

  /** The task file of a configuration of the loopshaping package (getTaskFilePathLoopshaping). */
  function GetTaskFilePathLoopshaping(getPath: string -> string, configName: string): (path: string)
    ensures |path| >= |TaskFileName|
    ensures path[..|path| - |TaskFileName|] == GetConfigFolderLoopshaping(getPath, configName)
    ensures path[|path| - |TaskFileName|..] == TaskFileName
  {
    TaskFileIn(GetConfigFolderLoopshaping(getPath, configName))
  }

  /** Cancelling a common prefix and suffix: the middles agree. */
  lemma MiddleCancels(prefix: string, a: string, b: string, suffix: string)
    requires prefix + a + suffix == prefix + b + suffix
    ensures a == b
  {
    var x, y := prefix + a + suffix, prefix + b + suffix;
    assert |a| == |b|;
    assert a == x[|prefix|..|prefix| + |a|];
    assert b == y[|prefix|..|prefix| + |b|];
  }

  /**
   * A task file of the MPC package starts with the package's path and ends
   * with the task file name, and it names its configuration: different
   * configurations have different task files.
   */
  lemma TaskFilePath(getPath: string -> string, name1: string, name2: string)
    ensures var path := GetTaskFilePath(getPath, name1);
      && path[..|getPath(MpcPackage)|] == getPath(MpcPackage)
      && path[|path| - |TaskFileName|..] == TaskFileName
    ensures GetTaskFilePath(getPath, name1) == GetTaskFilePath(getPath, name2) <==> name1 == name2
  {
    TaskFileNamesConfig(getPath, MpcPackage, name1, name2);
  }

  /** The same for the loopshaping package. */
  lemma TaskFilePathLoopshaping(getPath: string -> string, name1: string, name2: string)
    ensures var path := GetTaskFilePathLoopshaping(getPath, name1);
      && path[..|getPath(LoopshapingPackage)|] == getPath(LoopshapingPackage)
      && path[|path| - |TaskFileName|..] == TaskFileName
    ensures GetTaskFilePathLoopshaping(getPath, name1) == GetTaskFilePathLoopshaping(getPath, name2) <==> name1 == name2
  {
    TaskFileNamesConfig(getPath, LoopshapingPackage, name1, name2);
  }

  lemma TaskFileNamesConfig(getPath: string -> string, package: string, name1: string, name2: string)
    ensures var path := TaskFileIn(ConfigFolderIn(getPath, package, name1));
      && path[..|getPath(package)|] == getPath(package)
      && path[|path| - |TaskFileName|..] == TaskFileName
    ensures TaskFileIn(ConfigFolderIn(getPath, package, name1)) == TaskFileIn(ConfigFolderIn(getPath, package, name2)) <==> name1 == name2
  {
    var folder := ConfigFolderIn(getPath, package, name1);
    var path := TaskFileIn(folder);
    assert path[..|getPath(package)|] == folder[..|getPath(package)|];
    var prefix := getPath(package) + ConfigDirectory;
    if path == TaskFileIn(ConfigFolderIn(getPath, package, name2)) {
      MiddleCancels(prefix, name1, name2, TaskFileName);
    }
  }

  /** The point-foot quadruped interface: the four models it was built from and its task folder. */
  datatype QuadrupedPointfootInterface = QuadrupedPointfootInterface(
    kinematics: ModelInstance, kinematicsAd: ModelInstance, comModel: ModelInstance, comModelAd: ModelInstance,
    taskFolder: string)

  /** The loopshaping interface wraps a quadruped interface and keeps the configuration folder. */
  datatype QuadrupedLoopshapingInterface = QuadrupedLoopshapingInterface(
    quadrupedInterface: QuadrupedPointfootInterface, configFolder: string)

  /**
   * The interface of a model: kinematics and com model, each plain and
   * automatic-differentiation, from the factories. All four factories
   * succeed for every model, so this never fails.
   */
  function GetAnymalInterface(model: AnymalModel, taskFolder: string): (r: Result<QuadrupedPointfootInterface, ModelError>)
    ensures r.Success?
    ensures r.value.kinematics == ModelInstance(Kinematics, Plain, model)
    ensures r.value.kinematicsAd == ModelInstance(Kinematics, AutoDiff, model)
    ensures r.value.comModel == ModelInstance(ComModel, Plain, model)
    ensures r.value.comModelAd == ModelInstance(ComModel, AutoDiff, model)
    ensures r.value.taskFolder == taskFolder
  {
    Success(QuadrupedPointfootInterface(
      GetAnymalKinematics(model).value, GetAnymalKinematicsAd(model).value,
      GetAnymalComModel(model).value, GetAnymalComModelAd(model).value,
      taskFolder))
  }

  /** The loopshaping interface of a model: the plain interface built from the same folder, wrapped. */
  function GetAnymalLoopshapingInterface(model: AnymalModel, configFolder: string): (r: Result<QuadrupedLoopshapingInterface, ModelError>)
    ensures r.Success?
    ensures r.value.quadrupedInterface == GetAnymalInterface(model, configFolder).value
    ensures r.value.configFolder == configFolder
  {
    Success(QuadrupedLoopshapingInterface(GetAnymalInterface(model, configFolder).value, configFolder))
  }
}
