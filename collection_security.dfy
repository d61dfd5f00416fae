/**
 * Collection level security: granting a user, group or app a list of
 * permissions on a collection, and removing them again.
 */
module CollectionSecurity {
  import opened Http
  import opened Models
  import Text
  import AppDbCollections

  /** The kind of entity a permission targets. */
  datatype Level = USER | GROUP | RYUU_APP

  /** The nine collection permissions. */
  datatype Permission =
    | Admin | Write | Read | Share | Delete
    | CreateContent | UpdateContent | ReadContent | DeleteContent

  function LevelName(level: Level): string
  {
    match level
    case USER => "USER"
    case GROUP => "GROUP"
    case RYUU_APP => "RYUU_APP"
  }

  /** The name a permission is sent under. */
  function PermissionName(p: Permission): (r: string)
    ensures ',' !in r && '/' !in r && |r| > 0
  {
    match p
    case Admin => "admin"
    case Write => "write"
    case Read => "read"
    case Share => "share"
    case Delete => "delete"
    case CreateContent => "create_content"
    case UpdateContent => "update_content"
    case ReadContent => "read_content"
    case DeleteContent => "delete_content"
  }

  /** The receiver's reading of one name: the permission it names, if any. */
  function ParsePermission(s: string): (r: Option<Permission>)
    ensures r.Some? ==> PermissionName(r.value) == s
  {
    if s == "admin" then Some(Admin)
    else if s == "write" then Some(Write)
    else if s == "read" then Some(Read)
    else if s == "share" then Some(Share)
    else if s == "delete" then Some(Delete)
    else if s == "create_content" then Some(CreateContent)
    else if s == "update_content" then Some(UpdateContent)
    else if s == "read_content" then Some(ReadContent)
    else if s == "delete_content" then Some(DeleteContent)
    else None
  }

  lemma PermissionNameRoundTrip(p: Permission)
    ensures ParsePermission(PermissionName(p)) == Some(p)
  {
  }

  function PermissionNames(ps: seq<Permission>): (r: seq<string>)
    ensures |r| == |ps|
    ensures forall i :: 0 <= i < |ps| ==> r[i] == PermissionName(ps[i])
    ensures Text.SeparatorFree(r, ',')
  {
    seq(|ps|, i requires 0 <= i < |ps| => PermissionName(ps[i]))
  }

  function ParsePermissions(names: seq<string>): Option<seq<Permission>>
  {
    if |names| == 0 then Some([])
    else
      match (ParsePermission(names[0]), ParsePermissions(names[1..]))
      case (Some(p), Some(ps)) => Some([p] + ps)
      case _ => None
  }

  lemma {:induction false} PermissionNamesRoundTrip(ps: seq<Permission>)
    ensures ParsePermissions(PermissionNames(ps)) == Some(ps)
    decreases |ps|
  {
    if |ps| > 0 {
      PermissionNameRoundTrip(ps[0]);
      PermissionNamesRoundTrip(ps[1..]);
      assert PermissionNames(ps)[1..] == PermissionNames(ps[1..]);
      assert [ps[0]] + ps[1..] == ps;
    }
  }

  /**
   * The class's public static `domoUrl`, which every request reads; it starts
   * as the collections base, and any caller may reassign it, so the requests
   * below take it as an argument.
   */
  const InitialDomoUrl: string := AppDbCollections.DomoUrl

  /** `<domoUrl>/<collection>/permission/<level>/<entityId>`, the resource both requests address. */
  function PermissionPath(domoUrl: string, collectionName: string, level: Level, entityId: string): string
  {
    domoUrl + "/" + collectionName + "/permission/" + LevelName(level) + "/" + entityId
  }

  /** PUT of the listed permissions, comma-joined in the query string, in the order given. */
  function ModifyCollectionPermissions(domoUrl: string, collectionName: string, level: Level, entityId: string, permissions: seq<Permission>): (r: Request)
    ensures r.verb == PUT && r.body == NoBody
    ensures r.url == PermissionPath(domoUrl, collectionName, level, entityId) + "?permissions=" + Text.Join(PermissionNames(permissions), ',')
  {
    Request(PUT, PermissionPath(domoUrl, collectionName, level, entityId) + "?permissions=" + Text.Join(PermissionNames(permissions), ','), NoBody)
  }

  /** DELETE of the same resource, without a query. */
  function DeleteCollectionPermissions(domoUrl: string, collectionName: string, level: Level, entityId: string): (r: Request)
    ensures r.verb == DELETE && r.body == NoBody
    ensures r.url == PermissionPath(domoUrl, collectionName, level, entityId)
  {
    Request(DELETE, PermissionPath(domoUrl, collectionName, level, entityId), NoBody)
  }

  lemma FixedSegmentsSlashFree(level: Level)
    ensures '/' !in "permission" && '/' !in LevelName(level)
  {
    assert forall i :: 0 <= i < |"permission"| ==> "permission"[i] != '/';
    assert forall i :: 0 <= i < |LevelName(level)| ==> LevelName(level)[i] != '/';
  }

  /** The path names the collection, the level and the entity as separate segments. */
  lemma PermissionPathSegments(domoUrl: string, collectionName: string, level: Level, entityId: string)
    requires '/' !in collectionName && '/' !in entityId
    ensures Text.Split(PermissionPath(domoUrl, collectionName, level, entityId), '/') ==
      Text.Split(domoUrl, '/') + [collectionName, "permission", LevelName(level), entityId]
  {
    var base := domoUrl;
    var prefix := base + ['/'] + collectionName;
    FixedSegmentsSlashFree(level);
    assert PermissionPath(domoUrl, collectionName, level, entityId) ==
      prefix + ['/'] + "permission" + ['/'] + LevelName(level) + ['/'] + entityId;
    Text.SplitThreeSegments(prefix, "permission", LevelName(level), entityId, '/');
    Text.SplitAround(base, collectionName, '/');
    Text.SplitNoSeparator(collectionName, '/');
  }

  /** Modify and Delete address the same resource; Modify only adds the query. */
  lemma ModifyExtendsDelete(domoUrl: string, collectionName: string, level: Level, entityId: string, permissions: seq<Permission>)
    ensures ModifyCollectionPermissions(domoUrl, collectionName, level, entityId, permissions).url ==
      DeleteCollectionPermissions(domoUrl, collectionName, level, entityId).url + "?permissions=" + Text.Join(PermissionNames(permissions), ',')
    ensures ModifyCollectionPermissions(domoUrl, collectionName, level, entityId, []).url ==
      DeleteCollectionPermissions(domoUrl, collectionName, level, entityId).url + "?permissions="
  {
  }

  /**
   * The query reads back as exactly the permissions given, in order and with
   * any duplicates, when the list is not empty; nothing is deduplicated or checked.
   */
  lemma PermissionsQueryRoundTrip(domoUrl: string, collectionName: string, level: Level, entityId: string, permissions: seq<Permission>)
    requires |permissions| >= 1
    ensures var prefix := PermissionPath(domoUrl, collectionName, level, entityId) + "?permissions=";
      var url := ModifyCollectionPermissions(domoUrl, collectionName, level, entityId, permissions).url;
      |prefix| <= |url| && url[..|prefix|] == prefix
      && ParsePermissions(Text.Split(url[|prefix|..], ',')) == Some(permissions)
  {
    var prefix := PermissionPath(domoUrl, collectionName, level, entityId) + "?permissions=";
    var names := PermissionNames(permissions);
    var url := ModifyCollectionPermissions(domoUrl, collectionName, level, entityId, permissions).url;
    assert url == prefix + Text.Join(names, ',');
    assert url[|prefix|..] == Text.Join(names, ',');
    Text.SplitJoin(names, ',');
    PermissionNamesRoundTrip(permissions);
  }

  /** A repeated permission is sent twice. */
  lemma DuplicatesKept()
    ensures Text.Join(PermissionNames([Read, Read]), ',') == "read,read"
  {
    assert PermissionNames([Read, Read]) == ["read", "read"];
  }
}
