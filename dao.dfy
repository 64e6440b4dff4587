/**
 * Whether the DAO tab is shown on a profile: only for extra data listing DAO
 * Twitter ids, and only when the profile's user id is among them, compared
 * without regard to ASCII case.
 */
module Dao {
  import opened Values

  const DAO_LIST_TYPE := "daoTabTwitterIdList"

  datatype Identifier = Identifier(isUnknown: bool, userId: string)
  datatype Identity = Identity(identifier: Identifier)

  /** The tab's extra data: its `type`, and the `items` the DAO list carries. */
  datatype ExtraData = ExtraData(kind: string, items: Option<seq<string>>)

  /** `ids.some(x => x.toLowerCase() === userId.toLowerCase())`. */
  predicate SomeSameFolded(ids: seq<string>, userId: string)
    decreases |ids|
  {
    ids != [] && (Lower(ids[0]) == Lower(userId) || SomeSameFolded(ids[1..], userId))
  }

  lemma {:induction false} SomeSameFoldedSpec(ids: seq<string>, userId: string)
    ensures SomeSameFolded(ids, userId) <==> exists i :: 0 <= i < |ids| && SameFolded(ids[i], userId)
    decreases |ids|
  {
    if ids != [] {
      SomeSameFoldedSpec(ids[1..], userId);
      if exists i :: 0 <= i < |ids| && SameFolded(ids[i], userId) {
        var i :| 0 <= i < |ids| && SameFolded(ids[i], userId);
        if i > 0 {
          assert ids[1..][i - 1] == ids[i];
        }
      }
      if exists i :: 0 <= i < |ids[1..]| && SameFolded(ids[1..][i], userId) {
        var i :| 0 <= i < |ids[1..]| && SameFolded(ids[1..][i], userId);
        assert ids[i + 1] == ids[1..][i];
      }
    }
  }

  /**
   * `shouldDisplay(identity, addressNames, extraData)`. With no identity,
   * `identity?.identifier.userId.toLowerCase()` is undefined and no id equals it.
   */
  predicate ShouldDisplay(identity: Option<Identity>, extraData: Option<ExtraData>) {
    if extraData.None? || extraData.value.kind != DAO_LIST_TYPE then false
    else
      var ids := extraData.value.items.GetOr([]);
      match identity
      case None => false
      case Some(who) => !who.identifier.isUnknown && SomeSameFolded(ids, who.identifier.userId)
  }

  /**
   * The tab is shown exactly for DAO-list extra data, a known identifier, and
   * a listed id equal to the user id up to case; a missing list shows nothing.
   */
  lemma ShouldDisplayIff(identity: Option<Identity>, extraData: Option<ExtraData>)
    ensures ShouldDisplay(identity, extraData) <==>
      && extraData.Some? && extraData.value.kind == DAO_LIST_TYPE
      && identity.Some? && !identity.value.identifier.isUnknown
      && extraData.value.items.Some?
      && exists i :: 0 <= i < |extraData.value.items.value| && SameFolded(extraData.value.items.value[i], identity.value.identifier.userId)
  {
    if extraData.Some? && identity.Some? {
      SomeSameFoldedSpec(extraData.value.items.GetOr([]), identity.value.identifier.userId);
    }
  }
}
