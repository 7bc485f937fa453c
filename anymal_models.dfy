/**
 * The ANYmal model variants: their names, the reverse lookup from a name,
 * and which variant each model factory can build. The built kinematics,
 * centroidal and whole-body dynamics models are represented by what was
 * requested of the factory, not by their numerics.
 */
module AnymalModels {
  import opened Wrappers

  datatype AnymalModel = Bear | Cerberus | Chimera | Croc | Wheels | WheelsChimera

  datatype ModelError =
    | NameNotFound(name: string)
    | NotImplementedForWheels(message: string)

  function ToString(model: AnymalModel): (name: string)
    ensures |name| > 0
  {
    match model
    case Bear => "bear"
    case Cerberus => "cerberus"
    case Chimera => "chimera"
    case Croc => "croc"
    case Wheels => "wheels"
    case WheelsChimera => "wheels_chimera"
  }

  /** The reverse table: it has no entry for "wheels". */
  const NameToModel: map<string, AnymalModel> :=
    map["bear" := Bear, "cerberus" := Cerberus, "chimera" := Chimera, "croc" := Croc, "wheels_chimera" := WheelsChimera]

  /** The model with the given name; a name without an entry in the reverse table is an error. */
  function StringToAnymalModel(name: string): (r: Result<AnymalModel, ModelError>)
    ensures r.Success? <==> name in NameToModel
    ensures r.Failure? ==> r.error == NameNotFound(name)
  {
    if name in NameToModel then Success(NameToModel[name]) else Failure(NameNotFound(name))
  }

  /** No two variants share a name. */
  lemma ToStringInjective(m1: AnymalModel, m2: AnymalModel)
    ensures ToString(m1) == ToString(m2) <==> m1 == m2
  {
    if m1 != m2 {
      var n1, n2 := ToString(m1), ToString(m2);
      if |n1| == |n2| {
        // only "bear" and "croc" share a length, and they differ in the first letter
        assert n1[0] != n2[0];
      }
    }
  }

  /** Every variant except Wheels is found again from its name; Wheels' name has no entry. */
  lemma NameRoundTrip(model: AnymalModel)
    ensures model != Wheels ==> StringToAnymalModel(ToString(model)) == Success(model)
    ensures model == Wheels ==> StringToAnymalModel(ToString(model)) == Failure(NameNotFound("wheels"))
  {
    if model == Wheels {
      assert "wheels" != "bear" && "wheels" != "cerberus" && "wheels" != "chimera" && "wheels" != "croc";
      assert "wheels"[6..] == [] && "wheels_chimera"[6..] != [];
      assert "wheels" !in NameToModel;
    }
  }

  /** Every name the reverse table accepts is the name of the model it returns. */
  lemma StringRoundTrip(name: string)
    ensures StringToAnymalModel(name).Success? ==> ToString(StringToAnymalModel(name).value) == name
  {
  }

  /** What a factory is asked to build. */
  datatype ModelFamily = Kinematics | ComModel | WholebodyDynamics
  /** Plain floating-point or automatic-differentiation scalars. */
  datatype ScalarKind = Plain | AutoDiff

  /** A model object: its family, scalar type and variant. */
  datatype ModelInstance = ModelInstance(family: ModelFamily, scalar: ScalarKind, model: AnymalModel)

  /** The families each variant has an implementation of: all but whole-body dynamics for the wheeled ones. */
  predicate Implemented(family: ModelFamily, model: AnymalModel) {
    family != WholebodyDynamics || (model != Wheels && model != WheelsChimera)
  }

  function GetAnymalKinematics(model: AnymalModel): (r: Result<ModelInstance, ModelError>)
    ensures r == Success(ModelInstance(Kinematics, Plain, model))
  {
    match model
    case Bear => Success(ModelInstance(Kinematics, Plain, Bear))
    case Cerberus => Success(ModelInstance(Kinematics, Plain, Cerberus))
    case Chimera => Success(ModelInstance(Kinematics, Plain, Chimera))
    case Croc => Success(ModelInstance(Kinematics, Plain, Croc))
    case Wheels => Success(ModelInstance(Kinematics, Plain, Wheels))
    case WheelsChimera => Success(ModelInstance(Kinematics, Plain, WheelsChimera))
  }

  function GetAnymalKinematicsAd(model: AnymalModel): (r: Result<ModelInstance, ModelError>)
    ensures r == Success(ModelInstance(Kinematics, AutoDiff, model))
  {
    match model
    case Bear => Success(ModelInstance(Kinematics, AutoDiff, Bear))
    case Cerberus => Success(ModelInstance(Kinematics, AutoDiff, Cerberus))
    case Chimera => Success(ModelInstance(Kinematics, AutoDiff, Chimera))
    case Croc => Success(ModelInstance(Kinematics, AutoDiff, Croc))
    case Wheels => Success(ModelInstance(Kinematics, AutoDiff, Wheels))
    case WheelsChimera => Success(ModelInstance(Kinematics, AutoDiff, WheelsChimera))
  }

  function GetAnymalComModel(model: AnymalModel): (r: Result<ModelInstance, ModelError>)
    ensures r == Success(ModelInstance(ComModel, Plain, model))
  {
    match model
    case Bear => Success(ModelInstance(ComModel, Plain, Bear))
    case Cerberus => Success(ModelInstance(ComModel, Plain, Cerberus))
    case Chimera => Success(ModelInstance(ComModel, Plain, Chimera))
    case Croc => Success(ModelInstance(ComModel, Plain, Croc))
    case Wheels => Success(ModelInstance(ComModel, Plain, Wheels))
    case WheelsChimera => Success(ModelInstance(ComModel, Plain, WheelsChimera))
  }

  function GetAnymalComModelAd(model: AnymalModel): (r: Result<ModelInstance, ModelError>)
    ensures r == Success(ModelInstance(ComModel, AutoDiff, model))
  {
    match model
    case Bear => Success(ModelInstance(ComModel, AutoDiff, Bear))
    case Cerberus => Success(ModelInstance(ComModel, AutoDiff, Cerberus))
    case Chimera => Success(ModelInstance(ComModel, AutoDiff, Chimera))
    case Croc => Success(ModelInstance(ComModel, AutoDiff, Croc))
    case Wheels => Success(ModelInstance(ComModel, AutoDiff, Wheels))
    case WheelsChimera => Success(ModelInstance(ComModel, AutoDiff, WheelsChimera))
  }

  function GetWholebodyDynamics(model: AnymalModel): (r: Result<ModelInstance, ModelError>)
    ensures r.Success? <==> Implemented(WholebodyDynamics, model)
    ensures r.Success? ==> r.value == ModelInstance(WholebodyDynamics, Plain, model)
    ensures r.Failure? ==> r.error == NotImplementedForWheels("[getWholebodyDynamics] not implemented for wheels")
  {
    match model
    case Bear => Success(ModelInstance(WholebodyDynamics, Plain, Bear))
    case Cerberus => Success(ModelInstance(WholebodyDynamics, Plain, Cerberus))
    case Chimera => Success(ModelInstance(WholebodyDynamics, Plain, Chimera))
    case Croc => Success(ModelInstance(WholebodyDynamics, Plain, Croc))
    case Wheels => Failure(NotImplementedForWheels("[getWholebodyDynamics] not implemented for wheels"))
    case WheelsChimera => Failure(NotImplementedForWheels("[getWholebodyDynamics] not implemented for wheels"))
  }

  function GetWholebodyDynamicsAd(model: AnymalModel): (r: Result<ModelInstance, ModelError>)
    ensures r.Success? <==> Implemented(WholebodyDynamics, model)
    ensures r.Success? ==> r.value == ModelInstance(WholebodyDynamics, AutoDiff, model)
    ensures r.Failure? ==> r.error == NotImplementedForWheels("[getWholebodyDynamicsAd] not implemented for wheels")
  {
    match model
    case Bear => Success(ModelInstance(WholebodyDynamics, AutoDiff, Bear))
    case Cerberus => Success(ModelInstance(WholebodyDynamics, AutoDiff, Cerberus))
    case Chimera => Success(ModelInstance(WholebodyDynamics, AutoDiff, Chimera))
    case Croc => Success(ModelInstance(WholebodyDynamics, AutoDiff, Croc))
    case Wheels => Failure(NotImplementedForWheels("[getWholebodyDynamicsAd] not implemented for wheels"))
    case WheelsChimera => Failure(NotImplementedForWheels("[getWholebodyDynamicsAd] not implemented for wheels"))
  }

  /** The factory for a family and scalar type. */
  function Factory(family: ModelFamily, scalar: ScalarKind, model: AnymalModel): Result<ModelInstance, ModelError> {
    match (family, scalar)
    case (Kinematics, Plain) => GetAnymalKinematics(model)
    case (Kinematics, AutoDiff) => GetAnymalKinematicsAd(model)
    case (ComModel, Plain) => GetAnymalComModel(model)
    case (ComModel, AutoDiff) => GetAnymalComModelAd(model)
    case (WholebodyDynamics, Plain) => GetWholebodyDynamics(model)
    case (WholebodyDynamics, AutoDiff) => GetWholebodyDynamicsAd(model)
  }

  /**
   * The six factories agree: each builds exactly what was asked for, and
   * fails exactly for whole-body dynamics of a wheeled variant, whichever
   * scalar type is requested.
   */
  lemma FactoryCoverage(family: ModelFamily, scalar: ScalarKind, model: AnymalModel)
    ensures Factory(family, scalar, model).Success? <==> Implemented(family, model)
    ensures Factory(family, scalar, model).Success? ==> Factory(family, scalar, model).value == ModelInstance(family, scalar, model)
    ensures Factory(family, Plain, model).Success? <==> Factory(family, AutoDiff, model).Success?
  {
  }
}
