/**
 * The helpers every PHP script shares: reading the JSON body, checking required
 * fields, and the session gate.
 */
module PhpConfig {
  import opened Wrappers
  import opened PhpValues

  /**
   * `read_json()`: `decoded` is what `json_decode($raw, true)` gave (`Null` when the body
   * is not JSON). Anything but an array is replaced by the empty array.
   */
  function ReadJson(decoded: Value): (data: map<Key, Value>)
    ensures decoded.Arr? ==> data == decoded.entries
    ensures !decoded.Arr? ==> data == map[]
  {
    if decoded.Arr? then decoded.entries else map[]
  }

  /** `isset($data[$f])`: the key is present and its value is not null. */
  predicate Isset(data: map<Key, Value>, f: string)
  {
    StrKey(f) in data && data[StrKey(f)] != Null
  }

  /** The test inside `require_fields`: not set, or exactly the empty string. */
  predicate Missing(data: map<Key, Value>, f: string)
  {
    !Isset(data, f) || data[StrKey(f)] == Str("")
  }

  /**
   * `require_fields($data, $fields)`: walks the list in order and stops at the first
   * missing field, whose name the 400 reply reports; `None` means the script goes on.
   */
  method RequireFields(data: map<Key, Value>, fields: seq<string>) returns (missing: Option<string>)
    ensures missing.None? <==> forall i :: 0 <= i < |fields| ==> !Missing(data, fields[i])
    ensures missing.Some? ==>
      exists i :: 0 <= i < |fields| && fields[i] == missing.value && Missing(data, fields[i]) &&
        forall j :: 0 <= j < i ==> !Missing(data, fields[j])
  {
    for i := 0 to |fields|
      invariant forall j :: 0 <= j < i ==> !Missing(data, fields[j])
    {
      if Missing(data, fields[i]) {
        return Some(fields[i]);
      }
    }
    return None;
  }

  /** The `$_SESSION` entries the scripts read and write; an absent entry is `None`. */
  datatype Session = Session(playerId: Option<int>, playerName: Option<string>, email: Option<string>)

  const NoSession := Session(None, None, None)

  /**
   * `require_auth()` followed by `(int)$_SESSION['player_id']`: 401 exactly when no
   * player id is stored, otherwise the stored id.
   */
  function RequireAuth(s: Session): (r: Reply<int>)
    ensures r.Fail? <==> s.playerId.None?
    ensures r.Fail? ==> r.status == Unauthorized
    ensures r.Ok? ==> r.value == s.playerId.value
  {
    if s.playerId.None? then Fail(Unauthorized) else Ok(s.playerId.value)
  }
}
