/**
 * The plugin configuration (`Config`, `CreateConfig`) and the pure parts of
 * `New`: the check of the required fields, the namespace default and the TTL unit.
 */
module PluginConfig {
  import opened Wrappers

  /** `CacheTTL` of `CreateConfig`, in seconds. */
  const DefaultCacheTTL := 300

  /** The namespace `New` fills in when none is configured. */
  const DefaultNamespace := "default"

  /** `time.Second`: the clock and the cache TTL are in nanoseconds. */
  const NanosPerSecond := 1_000_000_000

  /** The configuration object. `New` keeps a reference to it and writes its namespace in place. */
  class Config {
    var secretName: string
    var secretKey: string
    var headerName: string
    var namespace: string
    /** Seconds; not checked for sign. */
    var cacheTTL: int

    /** `CreateConfig`: every string empty, a TTL of 300 seconds. */
    constructor Create()
      ensures secretName == "" && secretKey == "" && headerName == "" && namespace == ""
      ensures cacheTTL == DefaultCacheTTL
    {
      secretName, secretKey, headerName, namespace := "", "", "", "";
      cacheTTL := DefaultCacheTTL;
    }
  }

  /** The fields `New` refuses to leave empty. */
  datatype RequiredField = SecretName | SecretKey | HeaderName

  /** The order in which `New` checks the required fields. */
  function Rank(f: RequiredField): nat
  {
    match f
    case SecretName => 0
    case SecretKey => 1
    case HeaderName => 2
  }

  /** The configured text of a required field. */
  function FieldValue(f: RequiredField, secretName: string, secretKey: string, headerName: string): string
  {
    match f
    case SecretName => secretName
    case SecretKey => secretKey
    case HeaderName => headerName
  }

  /**
   * The validation chain at the start of `New`: the first empty required
   * field in checking order, or None when all three are set.
   */
  function FirstMissing(secretName: string, secretKey: string, headerName: string): (missing: Option<RequiredField>)
    ensures missing.None? <==> forall f :: FieldValue(f, secretName, secretKey, headerName) != ""
    ensures missing.Some? ==> FieldValue(missing.value, secretName, secretKey, headerName) == ""
    ensures missing.Some? ==>
      forall f :: Rank(f) < Rank(missing.value) ==> FieldValue(f, secretName, secretKey, headerName) != ""
  {
    if secretName == "" then
      assert FieldValue(SecretName, secretName, secretKey, headerName) == "";
      Some(SecretName)
    else if secretKey == "" then
      assert FieldValue(SecretKey, secretName, secretKey, headerName) == "";
      Some(SecretKey)
    else if headerName == "" then
      assert FieldValue(HeaderName, secretName, secretKey, headerName) == "";
      Some(HeaderName)
    else None
  }

  /** The namespace after `New`: never empty, a configured one kept, the default filled in otherwise. */
  function NamespaceOrDefault(namespace: string): (ns: string)
    ensures ns != ""
    ensures namespace != "" ==> ns == namespace
    ensures namespace == "" ==> ns == DefaultNamespace
  {
    if namespace == "" then DefaultNamespace else namespace
  }
}
