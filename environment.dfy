/** Resolution of the Google Cloud project id and location from the application
    settings, with the Cloud SDK environment variables as fallbacks. The settings
    object and the process environment are explicit parameters here. */
module Environment {
  import opened Wrappers

  /** The two settings the resolution reads (loaded from CRITICAT_-prefixed variables). */
  datatype Settings = Settings(gcpProjectId: Option<string>, gcpLocation: string)

  const DefaultLocation: string := "us-central1"

  /** The settings when no CRITICAT_ variable is set. */
  const DefaultSettings: Settings := Settings(None, DefaultLocation)

  type Env = map<string, string>

  const CloudSdkCoreProject: string := "CLOUDSDK_CORE_PROJECT"
  const GoogleCloudProject: string := "GOOGLE_CLOUD_PROJECT"
  const GcloudProject: string := "GCLOUD_PROJECT"
  const CloudSdkComputeRegion: string := "CLOUDSDK_COMPUTE_REGION"

  /** `os.environ.get(key)`. */
  function Lookup(env: Env, key: string): Option<string> {
    if key in env then Some(env[key]) else None
  }

  /** Python truthiness of an optional string: present and non-empty. */
  predicate Truthy(v: Option<string>) {
    v.Some? && v.value != ""
  }

  /** Reference semantics of a Python `a or b or ...` chain: the first truthy
      value, or the last value when none is truthy. */
  function OrChain(vs: seq<Option<string>>): Option<string>
    requires |vs| > 0
  {
    if |vs| == 1 || Truthy(vs[0]) then vs[0] else OrChain(vs[1..])
  }

  /** The project id: the setting when set and non-empty, otherwise CLOUDSDK_CORE_PROJECT
      when set and non-empty, otherwise GOOGLE_CLOUD_PROJECT as found (possibly absent or empty). */
  function GcpProjectId(settings: Settings, env: Env): (r: Option<string>)
    ensures Truthy(settings.gcpProjectId) ==> r == settings.gcpProjectId
    ensures !Truthy(settings.gcpProjectId) && Truthy(Lookup(env, CloudSdkCoreProject)) ==>
      r == Lookup(env, CloudSdkCoreProject)
    ensures !Truthy(settings.gcpProjectId) && !Truthy(Lookup(env, CloudSdkCoreProject)) ==>
      r == Lookup(env, GoogleCloudProject)
  {
    var projectId := settings.gcpProjectId;
    if !Truthy(projectId) then
      var fromSdk := Lookup(env, CloudSdkCoreProject);
      if !Truthy(fromSdk) then Lookup(env, GoogleCloudProject) else fromSdk
    else projectId
  }

  /** The resolution is the `or` chain over the three sources, in that order. */
  lemma ProjectIdIsOrChain(settings: Settings, env: Env)
    ensures GcpProjectId(settings, env) ==
      OrChain([settings.gcpProjectId, Lookup(env, CloudSdkCoreProject), Lookup(env, GoogleCloudProject)])
  {
    var vs := [settings.gcpProjectId, Lookup(env, CloudSdkCoreProject), Lookup(env, GoogleCloudProject)];
    assert vs[1..] == [vs[1], vs[2]];
    assert vs[1..][1..] == [vs[2]];
    if !Truthy(vs[0]) {
      assert OrChain(vs) == OrChain([vs[1], vs[2]]);
      if !Truthy(vs[1]) {
        assert OrChain([vs[1], vs[2]]) == OrChain([vs[2]]);
      }
    }
  }

  /** A usable project id is found exactly when one of the three sources holds one. */
  lemma ProjectIdFoundIff(settings: Settings, env: Env)
    ensures Truthy(GcpProjectId(settings, env)) <==>
      Truthy(settings.gcpProjectId) || Truthy(Lookup(env, CloudSdkCoreProject)) || Truthy(Lookup(env, GoogleCloudProject))
  {
  }

  /** GCLOUD_PROJECT is never consulted, although the warning names it. */
  lemma ProjectIdIgnoresGcloudProject(settings: Settings, env: Env, v: string)
    ensures GcpProjectId(settings, env[GcloudProject := v]) == GcpProjectId(settings, env)
  {
    assert Lookup(env[GcloudProject := v], CloudSdkCoreProject) == Lookup(env, CloudSdkCoreProject);
    assert Lookup(env[GcloudProject := v], GoogleCloudProject) == Lookup(env, GoogleCloudProject);
  }

  /** The location: a setting other than the default is kept as is; the default gives
      way to a non-empty CLOUDSDK_COMPUTE_REGION. */
  function GcpLocation(settings: Settings, env: Env): (r: string)
    ensures settings.gcpLocation != DefaultLocation ==> r == settings.gcpLocation
    ensures settings.gcpLocation == DefaultLocation && Truthy(Lookup(env, CloudSdkComputeRegion)) ==>
      r == env[CloudSdkComputeRegion]
    ensures settings.gcpLocation == DefaultLocation && !Truthy(Lookup(env, CloudSdkComputeRegion)) ==>
      r == DefaultLocation
  {
    var location := settings.gcpLocation;
    if location == DefaultLocation then
      var cloudRegion := Lookup(env, CloudSdkComputeRegion);
      if Truthy(cloudRegion) then cloudRegion.value else location
    else location
  }

  /** The location is never empty unless the setting itself is the empty string. */
  lemma LocationNonEmpty(settings: Settings, env: Env)
    requires settings.gcpLocation != ""
    ensures GcpLocation(settings, env) != ""
  {
    assert DefaultLocation != "";
  }

  /** With default settings everything comes from the environment: the project id from
      CLOUDSDK_CORE_PROJECT or GOOGLE_CLOUD_PROJECT, the location from
      CLOUDSDK_COMPUTE_REGION or the default region. */
  lemma DefaultSettingsDeferToEnvironment(env: Env)
    ensures GcpProjectId(DefaultSettings, env) ==
      (if Truthy(Lookup(env, CloudSdkCoreProject)) then Lookup(env, CloudSdkCoreProject)
       else Lookup(env, GoogleCloudProject))
    ensures GcpLocation(DefaultSettings, env) ==
      (if CloudSdkComputeRegion in env && env[CloudSdkComputeRegion] != "" then env[CloudSdkComputeRegion]
       else "us-central1")
  {
  }
}
