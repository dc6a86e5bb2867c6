/**
 * The resource paths the client requests: the fixed runtime paths and the
 * device-configuration path built by `_devcfg_url` (client.py:23-30).
 */
module DevicePaths {
  import opened Wrappers

  const CollectionPath: string := "/api/cfg/snmpdevice"
  const RuntimeSegment: string := "/runtime"
  const ReloadPath: string := "/api/rt/agent/reload"
  const DevicesInfoPath: string := "/api/rt/device/info"

  /** Python truthiness of the `id_` argument: `None` and `''` are falsy. */
  predicate Truthy(id: Option<string>) {
    id.Some? && id.value != ""
  }

  /** `_devcfg_url(id_, runtime)`. */
  function DevCfgUrl(id: Option<string>, runtime: bool): (p: string)
    ensures |CollectionPath| <= |p| && p[..|CollectionPath|] == CollectionPath
    ensures |p| == |CollectionPath| + (if Truthy(id) then 1 + |id.value| else 0)
                   + (if runtime then |RuntimeSegment| else 0)
    ensures Truthy(id) ==> p[|CollectionPath|..|CollectionPath| + 1 + |id.value|] == "/" + id.value
    ensures runtime ==> p[|p| - |RuntimeSegment|..] == RuntimeSegment
  {
    CollectionPath + (if Truthy(id) then "/" + id.value else "") + (if runtime then RuntimeSegment else "")
  }

  /** What a device-configuration path designates: which device, and runtime or database copy. */
  datatype Target = Target(id: Option<string>, runtime: bool)

  /** An id that reads back unambiguously as one path segment. */
  predicate PlainSegment(s: string) {
    s != "" && '/' !in s && s != "runtime"
  }

  /**
   * Reads a path of one of the four shapes back into the target it designates;
   * None for any other string.
   */
  function ParseDevCfgPath(p: string): (t: Option<Target>)
  {
    if |p| < |CollectionPath| || p[..|CollectionPath|] != CollectionPath then None
    else
      var rest := p[|CollectionPath|..];
      var n := |rest|;
      if rest == "" then Some(Target(None, false))
      else if rest == RuntimeSegment then Some(Target(None, true))
      else if rest[0] != '/' then None
      else if n > |RuntimeSegment| && rest[n - |RuntimeSegment|..] == RuntimeSegment
              && PlainSegment(rest[1..n - |RuntimeSegment|])
      then Some(Target(Some(rest[1..n - |RuntimeSegment|]), true))
      else if PlainSegment(rest[1..]) then Some(Target(Some(rest[1..]), false))
      else None
  }

  /**
   * For ids that are plain segments, the path determines the target: reading it
   * back gives the id (dropped when falsy) and the runtime flag.
   */
  lemma ParseDevCfgUrl(id: Option<string>, runtime: bool)
    requires Truthy(id) ==> PlainSegment(id.value)
    ensures ParseDevCfgPath(DevCfgUrl(id, runtime)) == Some(Target(if Truthy(id) then id else None, runtime))
  {
    var p := DevCfgUrl(id, runtime);
    var rest := p[|CollectionPath|..];
    if Truthy(id) {
      var s := id.value;
      if runtime {
        assert rest == "/" + s + RuntimeSegment;
        assert rest[1..|rest| - |RuntimeSegment|] == s;
      } else {
        assert rest == "/" + s;
        assert rest[1..] == s;
        if |rest| > |RuntimeSegment| {
          // the character where "/runtime" would start belongs to the id, which has no '/'
          assert rest[|rest| - |RuntimeSegment|] == s[|s| - |RuntimeSegment|] != '/';
          assert rest[|rest| - |RuntimeSegment|..][0] != RuntimeSegment[0];
        }
        assert rest[1..] != RuntimeSegment[1..];
      }
    } else {
      assert rest == if runtime then RuntimeSegment else "";
    }
  }

  /** Every path that reads back as a target is the path built for that target. */
  lemma DevCfgUrlOfParse(p: string)
    requires ParseDevCfgPath(p).Some?
    ensures var t := ParseDevCfgPath(p).value;
            (Truthy(t.id) ==> PlainSegment(t.id.value)) && DevCfgUrl(t.id, t.runtime) == p
  {
    var rest := p[|CollectionPath|..];
    assert p == CollectionPath + rest;
    var n := |rest|;
    if rest == "" || rest == RuntimeSegment {
    } else if n > |RuntimeSegment| && rest[n - |RuntimeSegment|..] == RuntimeSegment
              && PlainSegment(rest[1..n - |RuntimeSegment|]) {
      assert rest == "/" + rest[1..n - |RuntimeSegment|] + RuntimeSegment;
    } else {
      assert rest == "/" + rest[1..];
    }
  }

  /** A falsy id (None or the empty string) builds the collection path, as `create_device_config` relies on. */
  lemma FalsyIdIsCollection(id: Option<string>, runtime: bool)
    requires !Truthy(id)
    ensures DevCfgUrl(id, runtime) == DevCfgUrl(None, runtime)
    ensures DevCfgUrl(id, runtime) == if runtime then "/api/cfg/snmpdevice/runtime" else "/api/cfg/snmpdevice"
  {
  }

  /** The four shapes, for the id "42". */
  lemma FourShapes()
    ensures DevCfgUrl(None, false) == "/api/cfg/snmpdevice"
    ensures DevCfgUrl(None, true) == "/api/cfg/snmpdevice/runtime"
    ensures DevCfgUrl(Some("42"), false) == "/api/cfg/snmpdevice/42"
    ensures DevCfgUrl(Some("42"), true) == "/api/cfg/snmpdevice/42/runtime"
  {
  }

  /**
   * The id is not escaped: the device named "runtime" in the database and the
   * runtime collection share one path, and an id holding '/' can imitate the
   * runtime flag.
   */
  lemma UnescapedIdCollides()
    ensures DevCfgUrl(Some("runtime"), false) == DevCfgUrl(None, true)
    ensures DevCfgUrl(Some("a/runtime"), false) == DevCfgUrl(Some("a"), true)
  {
  }
}
