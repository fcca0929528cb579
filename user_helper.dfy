/**
 * The current user's name, read from the session blob under `user` and, failing that,
 * from the older blob under `userInfo`.
 */
module UserHelper {
  import opened Wrappers
  import opened Strings
  import opened LocalStorage

  /**
   * What one stored blob contributes: its trimmed `userName` when that is a string that
   * is not blank; nothing when the blob is absent, unparsable (the parse error is
   * caught), has no string name, or a blank one.
   */
  function NameFrom(b: Blob): (r: Option<string>)
    ensures r.Some? <==> b.Parsed? && b.rec.userName.Str? && !Blank(b.rec.userName.s)
    ensures r.Some? ==> r.value == Trim(b.rec.userName.s)
    ensures r.Some? ==> r.value != "" && Trim(r.value) == r.value
  {
    match b
    case Parsed(Record(_, Str(s))) =>
      TrimEmptyIffBlank(s);
      TrimIdempotent(s);
      if s != "" && Trim(s) != "" then Some(Trim(s)) else None
    case _ => None
  }

  /**
   * `getCurrentUserName()`: the name from `user` when it gives one, else the name from
   * `userInfo`, else `null`. A name returned is trimmed and never blank.
   */
  function GetCurrentUserName(st: Store): (r: Option<string>)
    ensures r.Some? ==> r.value != "" && Trim(r.value) == r.value
    ensures NameFrom(ReadBlob(st, UserKey)).Some? ==> r == NameFrom(ReadBlob(st, UserKey))
    ensures NameFrom(ReadBlob(st, UserKey)).None? ==> r == NameFrom(ReadBlob(st, UserInfoKey))
  {
    var fromUser := NameFrom(ReadBlob(st, UserKey));
    if fromUser.Some? then fromUser else NameFrom(ReadBlob(st, UserInfoKey))
  }

  /** The result is `null` exactly when neither blob gives a name. */
  lemma NoNameIffBothEmpty(st: Store)
    ensures GetCurrentUserName(st).None? <==>
      NameFrom(ReadBlob(st, UserKey)).None? && NameFrom(ReadBlob(st, UserInfoKey)).None?
  {
  }

  /** `userInfo` is not read when `user` gives a name: changing it changes nothing. */
  lemma UserInfoIgnoredWhenUserNamed(st: Store, other: Item)
    requires NameFrom(ReadBlob(st, UserKey)).Some?
    ensures GetCurrentUserName(st[UserInfoKey := other]) == GetCurrentUserName(st)
  {
    assert ReadBlob(st[UserInfoKey := other], UserKey) == ReadBlob(st, UserKey);
  }

  /** An unparsable blob under either key behaves exactly as if the key were not stored. */
  lemma MalformedIsAbsent(st: Store, key: string)
    requires key == UserKey || key == UserInfoKey
    requires ReadBlob(st, key).Malformed?
    ensures GetCurrentUserName(st) == GetCurrentUserName(st - {key})
  {
    var st' := st - {key};
    assert ReadBlob(st', key) == Absent;
    assert forall k :: k != key ==> ReadBlob(st', k) == ReadBlob(st, k) by {
      forall k | k != key ensures ReadBlob(st', k) == ReadBlob(st, k) {
        assert GetItem(st', k) == GetItem(st, k);
      }
    }
  }
}
