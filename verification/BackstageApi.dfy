/** The Backstage custom resource, api/v1alpha1: a pointer is an Option, a nil slice an empty one. */
module BackstageApi {
  import opened Wrappers

  datatype ObjectKeyRef = ObjectKeyRef(name: string, key: string)

  datatype Env = Env(name: string, value: string)

  datatype AppConfig = AppConfig(mountPath: string, configMaps: seq<ObjectKeyRef>)

  datatype ExtraFiles = ExtraFiles(mountPath: string, configMaps: seq<ObjectKeyRef>, secrets: seq<ObjectKeyRef>)

  datatype ExtraEnvs = ExtraEnvs(configMaps: seq<ObjectKeyRef>, secrets: seq<ObjectKeyRef>, envs: seq<Env>)

  datatype TLS = TLS(certificate: string, externalCertificateSecretName: string, key: string, caCertificate: string)

  datatype Route = Route(enabled: Option<bool>, host: string, subdomain: string, tls: Option<TLS>)

  datatype Application = Application(
    appConfig: Option<AppConfig>,
    dynamicPluginsConfigMapName: string,
    extraFiles: Option<ExtraFiles>,
    extraEnvs: Option<ExtraEnvs>,
    replicas: Option<int>,
    image: Option<string>,
    imagePullSecrets: seq<string>,
    route: Option<Route>)

  datatype Database = Database(enableLocalDb: Option<bool>, authSecretName: string)

  datatype RuntimeConfig = RuntimeConfig(backstageConfigName: string, localDbConfigName: string)

  datatype BackstageSpec = BackstageSpec(
    application: Option<Application>,
    rawRuntimeConfig: Option<RuntimeConfig>,
    database: Option<Database>)
  {
    predicate IsLocalDbEnabled() {
      database.Some? && database.value.enableLocalDb.Some? ==> database.value.enableLocalDb.value
    }

    predicate IsRouteEnabled() {
      && application.Some? && application.value.route.Some?
      && (application.value.route.value.enabled.Some? ==> application.value.route.value.enabled.value)
    }

    /** True, despite its name, when host, subdomain and TLS are all given. */
    predicate IsRouteEmpty()
      requires application.Some? && application.value.route.Some?
    {
      var route := application.value.route.value;
      route.host != "" && route.subdomain != "" && route.tls.Some? && route.tls.value != TLS("", "", "", "")
    }

    predicate IsAuthSecretSpecified() {
      database.Some? && database.value.authSecretName != ""
    }

    /** The name of the CR's own dynamic plugins, "" when it gives none. */
    function PluginsName(): string {
      if application.Some? then application.value.dynamicPluginsConfigMapName else ""
    }
  }

  datatype ConditionStatus = ConditionTrue | ConditionFalse

  datatype ConditionReason = Deployed | DeployFailed | DeployInProgress

  const DEPLOYED_TYPE := "Deployed"

  datatype Condition = Condition(conditionType: string, status: ConditionStatus, reason: ConditionReason)

  datatype Backstage = Backstage(namespace: string, name: string, spec: BackstageSpec, conditions: seq<Condition>)
}
