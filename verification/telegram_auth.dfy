/** Who may talk to the bot (src/utils/telegram-auth.ts): the manager's
    Telegram id and the comma-separated extra ids, fixed when the service
    is built; the middleware lets through only those users. */
module TelegramAuth {
  import opened Collections
  import opened Text

  /** The set built once by the constructor and never changed. */
  datatype Auth = Auth(allowedUsers: set<string>)

  /** `[managerId, ...ALLOWED_TG_IDS?.split(',')].filter(Boolean)`: the
      manager id and every piece of the extra list, without empty or
      undefined values; pieces are not trimmed. */
  function NewAuth(managerId: Option<string>, extraIds: Option<string>): (r: Auth)
    ensures forall u :: u in r.allowedUsers <==>
      u != "" && (managerId == Some(u) || (extraIds.Some? && u in Split(extraIds.value, ',')))
  {
    var extra := if extraIds.Some? then Split(extraIds.value, ',') else [];
    var fromManager := if managerId.Some? && managerId.value != "" then {managerId.value} else {};
    Auth(fromManager + set p | p in extra && p != "")
  }

  /** `isAuthorized(userId)`: the id's text is in the set. */
  predicate IsAuthorized(auth: Auth, userId: string) {
    userId in auth.allowedUsers
  }

  /** Every id of a comma-joined list of ids (none empty, none with a
      comma) is authorized, and with no manager id nothing else is. */
  lemma ListedIdsAuthorized(managerId: Option<string>, ids: seq<string>)
    requires |ids| >= 1
    requires forall k :: 0 <= k < |ids| ==> ids[k] != "" && ',' !in ids[k]
    ensures var auth := NewAuth(managerId, Some(Join(ids, ',')));
      (forall k :: 0 <= k < |ids| ==> IsAuthorized(auth, ids[k]))
      && (managerId.None? ==> forall u :: IsAuthorized(auth, u) ==> u in ids)
  {
    SplitJoin(ids, ',');
  }

  /** The pieces keep their spaces: `"1, 2"` admits `" 2"` but not `"2"`. */
  lemma PiecesNotTrimmed()
    ensures IsAuthorized(NewAuth(None, Some("1, 2")), " 2")
    ensures !IsAuthorized(NewAuth(None, Some("1, 2")), "2")
  {
    var ids := ["1", " 2"];
    assert Join(ids, ',') == "1, 2";
    ListedIdsAuthorized(None, ids);
  }

  /** The middleware: a message without a sender id is dropped; otherwise
      `next` is called iff the id's decimal text is authorized. */
  function Gate(auth: Auth, fromId: Option<int>): (callsNext: bool)
    ensures callsNext <==> fromId.Some? && IntToString(fromId.value) in auth.allowedUsers
  {
    match fromId
    case None => false
    case Some(id) => IsAuthorized(auth, IntToString(id))
  }
}
