/**
 * The claim wrapper: a claim together with the store metadata of the config map it
 * is persisted in, and the two conversions between a wrapper and a config map.
 *
 * The domain codec that turns a config map's data into a claim and back is not part
 * of this model. It is a pair of functions: `fromMap`, which may fail with an error of
 * type `E`, and `toMap`. Decoding takes `fromMap`, encoding takes `toMap`, and the
 * round-trip lemmas take both. The claim type `C` is left abstract.
 */
module Claim {

  /** The outcome of a conversion that may fail: Go's `(value, error)` pair. */
  datatype Result<T, E> = Success(value: T) | Failure(error: E)

  /** Store metadata. The four fields the wrapper carries are named; every other
      field of the store's metadata (annotations, identifiers, timestamps, ...) is
      gathered in `Other`, whose empty value stands for Go's zero value. */
  datatype ObjectMeta = ObjectMeta(
    Name: string,
    Namespace: string,
    ResourceVersion: string,
    Labels: map<string, string>,
    Other: map<string, string>)

  /** A config map: metadata and a string-to-string data payload. */
  datatype ConfigMap = ConfigMap(ObjectMeta: ObjectMeta, Data: map<string, string>)

  /** A claim with the metadata of the config map that holds it. */
  datatype ServicePlanClaimWrapper<C> = ServicePlanClaimWrapper(ObjectMeta: ObjectMeta, Claim: C)
  {
    /** The config map that persists this wrapper. */
    function ToConfigMap(toMap: C -> map<string, string>): (r: ConfigMap)
      ensures r.ObjectMeta == ObjectMeta
      ensures r.Data == toMap(Claim)
    {
      ConfigMap(ObjectMeta, toMap(Claim))
    }
  }

  /** A listing of claims with the store version it was taken at. */
  datatype ServicePlanClaimsListWrapper<C> = ServicePlanClaimsListWrapper(
    Claims: seq<ServicePlanClaimWrapper<C>>,
    ResourceVersion: string)

  /** The wrapper for the claim in `cm`, or the domain codec's error when `cm.Data`
      does not decode. */
  function ServicePlanClaimWrapperFromConfigMap<C, E>(
    cm: ConfigMap, fromMap: map<string, string> -> Result<C, E>): (r: Result<ServicePlanClaimWrapper<C>, E>)
    ensures r.Failure? <==> fromMap(cm.Data).Failure?
    ensures r.Failure? ==> r.error == fromMap(cm.Data).error
    ensures r.Success? ==> r.value.Claim == fromMap(cm.Data).value
    ensures r.Success? ==>
      && r.value.ObjectMeta.ResourceVersion == cm.ObjectMeta.ResourceVersion
      && r.value.ObjectMeta.Name == cm.ObjectMeta.Name
      && r.value.ObjectMeta.Namespace == cm.ObjectMeta.Namespace
      && r.value.ObjectMeta.Labels == cm.ObjectMeta.Labels
    ensures r.Success? ==> r.value.ObjectMeta.Other == map[]
  {
    match fromMap(cm.Data)
    case Failure(err) => Failure(err)
    case Success(claim) =>
      Success(ServicePlanClaimWrapper(
        ObjectMeta(
          Name := cm.ObjectMeta.Name,
          Namespace := cm.ObjectMeta.Namespace,
          ResourceVersion := cm.ObjectMeta.ResourceVersion,
          Labels := cm.ObjectMeta.Labels,
          Other := map[]),
        claim))
  }

  // ---------------------------------------------------------------------------
  // Properties of the two conversions

  /** The part of the metadata that decoding keeps. */
  function Carried(m: ObjectMeta): ObjectMeta
  {
    m.(Other := map[])
  }

  /** Decoding looks at the data and at the four carried metadata fields only:
      config maps that agree on those decode alike. */
  lemma DecodeReadsOnlyCarriedMetadata<C, E>(
    cm1: ConfigMap, cm2: ConfigMap, fromMap: map<string, string> -> Result<C, E>)
    requires cm1.Data == cm2.Data
    requires Carried(cm1.ObjectMeta) == Carried(cm2.ObjectMeta)
    ensures ServicePlanClaimWrapperFromConfigMap(cm1, fromMap) == ServicePlanClaimWrapperFromConfigMap(cm2, fromMap)
  {
  }

  /** A decoded wrapper's metadata is the config map's carried metadata. */
  lemma DecodedMetadataIsCarried<C, E>(cm: ConfigMap, fromMap: map<string, string> -> Result<C, E>)
    requires fromMap(cm.Data).Success?
    ensures ServicePlanClaimWrapperFromConfigMap(cm, fromMap)
         == Success(ServicePlanClaimWrapper(Carried(cm.ObjectMeta), fromMap(cm.Data).value))
  {
  }

  /** Decoding what `ToConfigMap` wrote gives back the wrapper's name, namespace,
      resource version and labels, whenever the claim part decodes. */
  lemma DecodeAfterEncodeKeepsMetadata<C, E>(
    w: ServicePlanClaimWrapper<C>, fromMap: map<string, string> -> Result<C, E>, toMap: C -> map<string, string>)
    requires fromMap(toMap(w.Claim)).Success?
    ensures var r := ServicePlanClaimWrapperFromConfigMap(w.ToConfigMap(toMap), fromMap);
      && r.Success?
      && r.value.ObjectMeta.Name == w.ObjectMeta.Name
      && r.value.ObjectMeta.Namespace == w.ObjectMeta.Namespace
      && r.value.ObjectMeta.ResourceVersion == w.ObjectMeta.ResourceVersion
      && r.value.ObjectMeta.Labels == w.ObjectMeta.Labels
  {
  }

  /** When the domain codec round-trips the claim, decoding what `ToConfigMap` wrote
      gives back the wrapper itself exactly when it has no other metadata. */
  lemma DecodeAfterEncode<C, E>(
    w: ServicePlanClaimWrapper<C>, fromMap: map<string, string> -> Result<C, E>, toMap: C -> map<string, string>)
    requires fromMap(toMap(w.Claim)) == Success(w.Claim)
    ensures ServicePlanClaimWrapperFromConfigMap(w.ToConfigMap(toMap), fromMap)
         == Success(w.(ObjectMeta := Carried(w.ObjectMeta)))
    ensures ServicePlanClaimWrapperFromConfigMap(w.ToConfigMap(toMap), fromMap) == Success(w)
        <==> w.ObjectMeta.Other == map[]
  {
  }

  /** When the domain codec round-trips the data, writing back a decoded config map
      reproduces it exactly when it has no other metadata; in every case it
      reproduces its data and its carried metadata. */
  lemma EncodeAfterDecode<C, E>(
    cm: ConfigMap, fromMap: map<string, string> -> Result<C, E>, toMap: C -> map<string, string>)
    requires fromMap(cm.Data).Success? && toMap(fromMap(cm.Data).value) == cm.Data
    ensures var r := ServicePlanClaimWrapperFromConfigMap(cm, fromMap);
      && r.Success?
      && r.value.ToConfigMap(toMap) == cm.(ObjectMeta := Carried(cm.ObjectMeta))
      && (r.value.ToConfigMap(toMap) == cm <==> cm.ObjectMeta.Other == map[])
  {
  }

  /** Encoding, unlike decoding, keeps every metadata field: wrappers that persist
      to the same config map have the same metadata, and its data is the claim's encoding. */
  lemma EncodeCarriesAllMetadata<C>(
    w1: ServicePlanClaimWrapper<C>, w2: ServicePlanClaimWrapper<C>, toMap: C -> map<string, string>)
    ensures w1.ToConfigMap(toMap).Data == toMap(w1.Claim)
    ensures w1.ToConfigMap(toMap).ObjectMeta == w1.ObjectMeta
    ensures w1.ToConfigMap(toMap) == w2.ToConfigMap(toMap) ==> w1.ObjectMeta == w2.ObjectMeta
  {
  }

  /** A decode failure is the domain codec's own failure, unchanged. */
  lemma DecodeFailureIsCodecFailure<C, E>(cm: ConfigMap, fromMap: map<string, string> -> Result<C, E>, e: E)
    ensures ServicePlanClaimWrapperFromConfigMap(cm, fromMap) == Failure(e) <==> fromMap(cm.Data) == Failure(e)
  {
  }
}
