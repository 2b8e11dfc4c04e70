/** How Kubernetes objects are named: group, version and kind as apimachinery reads them, and object keys. */
module Gvk {
  import opened Strings

  /** Namespace and name, the key of client.Get. */
  datatype ObjectKey = ObjectKey(namespace: string, name: string)

  datatype GVK = GVK(group: string, version: string, kind: string)

  datatype GroupVersion = GroupVersion(group: string, version: string) {
    /** GroupVersion.String: the group is left out when it is empty. */
    function Print(): string {
      if group != "" then group + (['/'] + version) else version
    }

    function WithKind(kind: string): GVK {
      GVK(group, version, kind)
    }
  }

  function GroupVersionOf(g: GVK): GroupVersion {
    GroupVersion(g.group, g.version)
  }

  /** schema.ParseGroupVersion: `version` or `group/version`; more slashes are an error. */
  function ParseGroupVersion(s: string): Option<GroupVersion> {
    if s == "" || s == "/" then Some(GroupVersion("", ""))
    else
      var parts := Split(s, '/');
      if |parts| == 1 then Some(GroupVersion("", s))
      else if |parts| == 2 then Some(GroupVersion(parts[0], parts[1]))
      else None
  }
}
