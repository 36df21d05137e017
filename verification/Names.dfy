/** Names, cluster keys and labels of the runtime objects. */
module Names {

  /** The twelve registered kinds of runtime objects, one Go type each. */
  datatype Kind =
    | AppConfigKind | ConfigMapEnvsKind | ConfigMapFilesKind | DbSecretKind | DbServiceKind | DbStatefulSetKind
    | DeploymentKind | DynamicPluginsKind | RouteKind | SecretEnvsKind | SecretFilesKind | ServiceKind

  datatype ApiKind = ConfigMaps | Deployments | Routes | Secrets | Services | StatefulSets

  /** Where an object lives in the cluster. */
  datatype Key = Key(api: ApiKind, namespace: string, name: string)

  function ApiKindOf(kind: Kind): ApiKind {
    match kind
    case AppConfigKind | ConfigMapEnvsKind | ConfigMapFilesKind | DynamicPluginsKind => ConfigMaps
    case DbSecretKind | SecretEnvsKind | SecretFilesKind => Secrets
    case DbServiceKind | ServiceKind => Services
    case DbStatefulSetKind => StatefulSets
    case DeploymentKind => Deployments
    case RouteKind => Routes
  }

  function ObjectType(kind: Kind): string {
    match kind
    case AppConfigKind => "backstage-appconfig"
    case ConfigMapEnvsKind | SecretEnvsKind => "backstage-envs"
    case ConfigMapFilesKind | SecretFilesKind => "backstage-files"
    case DbSecretKind | DbServiceKind | DbStatefulSetKind => "backstage-db"
    case DeploymentKind | RouteKind | ServiceKind => "backstage"
    case DynamicPluginsKind => "backstage-dynamic-plugins"
  }

  function GenerateRuntimeObjectName(backstageName: string, objectType: string): string {
    backstageName + "-" + objectType
  }

  function RuntimeName(kind: Kind, backstageName: string): string {
    GenerateRuntimeObjectName(backstageName, ObjectType(kind))
  }

  function KeyOf(kind: Kind, namespace: string, backstageName: string): Key {
    Key(ApiKindOf(kind), namespace, RuntimeName(kind, backstageName))
  }

  /** A custom resource by its namespace and name. */
  datatype Cr = Cr(namespace: string, name: string)

  /** Every key that a run for this CR may write. */
  ghost predicate Owns(namespace: string, backstageName: string, key: Key) {
    exists kind :: key == KeyOf(kind, namespace, backstageName)
  }

  /** The last two characters of a generated name, which tell its object type. */
  function Ending(s: string): string
    requires |s| >= 2
  {
    s[|s| - 2..]
  }

  lemma EndingOfName(kind: Kind, backstageName: string)
    ensures |RuntimeName(kind, backstageName)| >= 2
    ensures Ending(RuntimeName(kind, backstageName)) == Ending(ObjectType(kind))
  {
    var t := ObjectType(kind);
    assert RuntimeName(kind, backstageName)[|backstageName| + 1..] == t;
  }

  lemma EndingsTellKinds(k1: Kind, k2: Kind)
    requires ApiKindOf(k1) == ApiKindOf(k2)
    requires Ending(ObjectType(k1)) == Ending(ObjectType(k2))
    ensures k1 == k2
  {
    assert Ending("backstage-appconfig") == "ig";
    assert Ending("backstage-envs") == "vs";
    assert Ending("backstage-files") == "es";
    assert Ending("backstage-db") == "db";
    assert Ending("backstage") == "ge";
    assert Ending("backstage-dynamic-plugins") == "ns";
  }

  /** No two runtime objects of any two CRs share a key, for CR names that are any strings. */
  lemma KeysAreInjective(k1: Kind, n1: string, b1: string, k2: Kind, n2: string, b2: string)
    ensures KeyOf(k1, n1, b1) == KeyOf(k2, n2, b2) <==> k1 == k2 && n1 == n2 && b1 == b2
  {
    if KeyOf(k1, n1, b1) == KeyOf(k2, n2, b2) {
      EndingOfName(k1, b1);
      EndingOfName(k2, b2);
      EndingsTellKinds(k1, k2);
      assert b1 == RuntimeName(k1, b1)[..|b1|];
      assert b2 == RuntimeName(k2, b2)[..|b2|];
    }
  }

  lemma OwnersAreUnique(n1: string, b1: string, n2: string, b2: string, key: Key)
    requires Owns(n1, b1, key) && Owns(n2, b2, key)
    ensures n1 == n2 && b1 == b2
  {
    var k1 :| key == KeyOf(k1, n1, b1);
    var k2 :| key == KeyOf(k2, n2, b2);
    KeysAreInjective(k1, n1, b1, k2, n2, b2);
  }

  const APP_LABEL := "backstage.io/app"

  function AppLabel(backstageName: string): string { "backstage-" + backstageName }

  function DbAppLabel(backstageName: string): string { "backstage-db-" + backstageName }

  /**
   The value that selects the Backstage pods of one CR selects the database pods of another
   exactly when the first is named "db-" plus the second, so never inside one CR.
   */
  lemma AppLabelsCollide(b1: string, b2: string)
    ensures AppLabel(b1) == DbAppLabel(b2) <==> b1 == "db-" + b2
    ensures AppLabel(b1) == AppLabel(b2) <==> b1 == b2
    ensures DbAppLabel(b1) == DbAppLabel(b2) <==> b1 == b2
    ensures AppLabel(b1) != DbAppLabel(b1)
  {
    assert DbAppLabel(b2) == AppLabel("db-" + b2);
    assert AppLabel(b1)[|"backstage-"|..] == b1;
    assert AppLabel(b2)[|"backstage-"|..] == b2;
    assert AppLabel("db-" + b2)[|"backstage-"|..] == "db-" + b2;
    assert DbAppLabel(b1)[|"backstage-db-"|..] == b1;
    assert DbAppLabel(b2)[|"backstage-db-"|..] == b2;
  }
}
