/** The Android client's preference store: the first-analysis flag, the last
    skin-condition result, the two session tokens and the user's name, email
    and id, kept in a key-value store that `put` and `remove` change in place. */
module Preferences {
  import opened Values

  datatype Pref = PBool(b: bool) | PString(s: string)

  type Store = map<string, Pref>

  const KeyCompletedFirstAnalysis: string := "completed_first_analysis"
  const KeyHasEczema: string := "has_eczema"
  const KeyEczemaLevel: string := "eczema_level"
  const KeyHasAcne: string := "has_acne"
  const KeyAcneLevel: string := "acne_level"
  const KeyHasRosacea: string := "has_rosacea"
  const KeyRosaceaLevel: string := "rosacea_level"
  const KeyIsNormal: string := "is_normal"
  const KeyAccessToken: string := "access_token"
  const KeyRefreshToken: string := "refresh_token"
  const KeyUserName: string := "user_name"
  const KeyUserEmail: string := "user_email"
  const KeyUserId: string := "user_id"

  const BoolKeys: set<string> := {KeyCompletedFirstAnalysis, KeyHasEczema, KeyHasAcne, KeyHasRosacea, KeyIsNormal}
  const StringKeys: set<string> :=
    {KeyEczemaLevel, KeyAcneLevel, KeyRosaceaLevel, KeyAccessToken, KeyRefreshToken, KeyUserName, KeyUserEmail, KeyUserId}
  const ResultKeys: set<string> :=
    {KeyHasEczema, KeyEczemaLevel, KeyHasAcne, KeyAcneLevel, KeyHasRosacea, KeyRosaceaLevel, KeyIsNormal}
  const TokenKeys: set<string> := {KeyAccessToken, KeyRefreshToken}
  const UserDataKeys: set<string> := {KeyUserName, KeyUserEmail, KeyUserId, KeyAccessToken, KeyRefreshToken}

  /** Every flag key holds a boolean and every text key a string. */
  ghost predicate WellTyped(store: Store)
  {
    forall k :: k in store ==> (k in BoolKeys ==> store[k].PBool?) && (k in StringKeys ==> store[k].PString?)
  }

  /** `getBoolean(key, default)`. */
  function GetBoolean(store: Store, key: string, default: bool): (r: bool)
    ensures key !in store ==> r == default
    ensures key in store && store[key].PBool? ==> r == store[key].b
  {
    if key in store && store[key].PBool? then store[key].b else default
  }

  /** `getString(key, null)`. */
  function GetString(store: Store, key: string): (r: Option<string>)
    ensures r.Some? <==> key in store && store[key].PString?
    ensures r.Some? ==> store[key] == PString(r.value)
  {
    if key in store && store[key].PString? then Some(store[key].s) else None
  }

  /** `getString(key, "Yok") ?: "Yok"`. */
  function GetLevel(store: Store, key: string): string
  {
    GetString(store, key).GetOr("Yok")
  }

  datatype SkinAnalysisResult = SkinAnalysisResult(
    hasEczema: bool,
    eczemaLevel: string,
    hasAcne: bool,
    acneLevel: string,
    hasRosacea: bool,
    rosaceaLevel: string,
    isNormal: bool)

  /** The data class's default values. */
  const DefaultResult: SkinAnalysisResult := SkinAnalysisResult(false, "Yok", false, "Yok", false, "Yok", true)

  function ResultIn(store: Store): SkinAnalysisResult
  {
    SkinAnalysisResult(
      GetBoolean(store, KeyHasEczema, false),
      GetLevel(store, KeyEczemaLevel),
      GetBoolean(store, KeyHasAcne, false),
      GetLevel(store, KeyAcneLevel),
      GetBoolean(store, KeyHasRosacea, false),
      GetLevel(store, KeyRosaceaLevel),
      GetBoolean(store, KeyIsNormal, true))
  }

  function WithResult(store: Store, r: SkinAnalysisResult): Store
  {
    store[KeyHasEczema := PBool(r.hasEczema)][KeyEczemaLevel := PString(r.eczemaLevel)]
         [KeyHasAcne := PBool(r.hasAcne)][KeyAcneLevel := PString(r.acneLevel)]
         [KeyHasRosacea := PBool(r.hasRosacea)][KeyRosaceaLevel := PString(r.rosaceaLevel)]
         [KeyIsNormal := PBool(r.isNormal)]
  }

  /** A batch of `remove` calls. */
  function Without(store: Store, keys: set<string>): Store
  {
    map k | k in store && k !in keys :: store[k]
  }

  /** Saving a result and reading it back gives the same seven values; the
      other keys are untouched and the store stays well typed. */
  lemma ResultRoundTrip(store: Store, r: SkinAnalysisResult)
    requires WellTyped(store)
    ensures ResultIn(WithResult(store, r)) == r
    ensures WellTyped(WithResult(store, r))
    ensures forall k :: k !in ResultKeys ==> (k in WithResult(store, r) <==> k in store)
    ensures forall k :: k !in ResultKeys && k in store ==> WithResult(store, r)[k] == store[k]
  {
    ResultReadsBack(store, r);
    ResultFrame(store, r);
    var w := WithResult(store, r);
    forall k | k in w
      ensures (k in BoolKeys ==> w[k].PBool?) && (k in StringKeys ==> w[k].PString?)
    {
      if k !in ResultKeys {
        assert w[k] == store[k];
      } else {
        assert k == KeyHasEczema || k == KeyEczemaLevel || k == KeyHasAcne || k == KeyAcneLevel
          || k == KeyHasRosacea || k == KeyRosaceaLevel || k == KeyIsNormal;
      }
    }
  }

  /** Keys outside the result are left as they were. */
  lemma ResultFrame(store: Store, r: SkinAnalysisResult)
    ensures forall k :: k !in ResultKeys ==> (k in WithResult(store, r) <==> k in store)
    ensures forall k :: k !in ResultKeys && k in store ==> WithResult(store, r)[k] == store[k]
    ensures forall k :: k in WithResult(store, r) ==> k in store || k in ResultKeys
  {
  }

  /** The seven saved values, key by key. */
  lemma ResultReadsBack(store: Store, r: SkinAnalysisResult)
    ensures var w := WithResult(store, r);
      && w[KeyHasEczema] == PBool(r.hasEczema) && w[KeyEczemaLevel] == PString(r.eczemaLevel)
      && w[KeyHasAcne] == PBool(r.hasAcne) && w[KeyAcneLevel] == PString(r.acneLevel)
      && w[KeyHasRosacea] == PBool(r.hasRosacea) && w[KeyRosaceaLevel] == PString(r.rosaceaLevel)
      && w[KeyIsNormal] == PBool(r.isNormal)
  {
  }

  /** With nothing saved: no first analysis, no tokens, no user fields, and
      the default result (no flags, levels "Yok", normal skin). */
  lemma EmptyStoreDefaults(key: string)
    ensures !GetBoolean(map[], KeyCompletedFirstAnalysis, false)
    ensures ResultIn(map[]) == DefaultResult
    ensures GetString(map[], key) == None
  {
  }

  /** A string saved under a key reads back; every other key is unchanged. */
  lemma StringRoundTrip(store: Store, key: string, v: string, other: string)
    requires key in StringKeys && WellTyped(store)
    ensures GetString(store[key := PString(v)], key) == Some(v)
    ensures WellTyped(store[key := PString(v)])
    ensures other != key ==> GetString(store[key := PString(v)], other) == GetString(store, other)
    ensures other != key ==> GetBoolean(store[key := PString(v)], other, false) == GetBoolean(store, other, false)
  {
  }

  /** The first-analysis flag reads back as set. */
  lemma CompletedRoundTrip(store: Store, completed: bool)
    requires WellTyped(store)
    ensures GetBoolean(store[KeyCompletedFirstAnalysis := PBool(completed)], KeyCompletedFirstAnalysis, false) == completed
    ensures WellTyped(store[KeyCompletedFirstAnalysis := PBool(completed)])
    ensures ResultIn(store[KeyCompletedFirstAnalysis := PBool(completed)]) == ResultIn(store)
  {
  }

  /** Removing keys deletes exactly those keys. */
  lemma WithoutProps(store: Store, keys: set<string>)
    requires WellTyped(store)
    ensures WellTyped(Without(store, keys))
    ensures forall k :: k in keys ==> k !in Without(store, keys)
    ensures forall k :: k !in keys ==> (k in Without(store, keys) <==> k in store)
    ensures forall k :: k !in keys && k in store ==> Without(store, keys)[k] == store[k]
  {
  }

  /** `clearTokens` removes both tokens and nothing else. */
  lemma ClearTokensOnly(store: Store, other: string)
    ensures GetString(Without(store, TokenKeys), KeyAccessToken) == None
    ensures GetString(Without(store, TokenKeys), KeyRefreshToken) == None
    ensures other !in TokenKeys ==> GetString(Without(store, TokenKeys), other) == GetString(store, other)
    ensures ResultIn(Without(store, TokenKeys)) == ResultIn(store)
    ensures GetBoolean(Without(store, TokenKeys), KeyCompletedFirstAnalysis, false) ==
      GetBoolean(store, KeyCompletedFirstAnalysis, false)
  {
    var s := Without(store, TokenKeys);
    assert ResultIn(s).eczemaLevel == ResultIn(store).eczemaLevel;
    assert ResultIn(s).acneLevel == ResultIn(store).acneLevel;
    assert ResultIn(s).rosaceaLevel == ResultIn(store).rosaceaLevel;
  }

  /** `clearUserData` removes the name, email, id and both tokens; the last
      analysis result and the first-analysis flag survive. */
  lemma ClearUserDataKeepsAnalysis(store: Store)
    ensures forall k :: k in UserDataKeys ==> GetString(Without(store, UserDataKeys), k) == None
    ensures ResultIn(Without(store, UserDataKeys)) == ResultIn(store)
    ensures GetBoolean(Without(store, UserDataKeys), KeyCompletedFirstAnalysis, false) ==
      GetBoolean(store, KeyCompletedFirstAnalysis, false)
  {
    var s := Without(store, UserDataKeys);
    assert ResultIn(s).eczemaLevel == ResultIn(store).eczemaLevel;
    assert ResultIn(s).acneLevel == ResultIn(store).acneLevel;
    assert ResultIn(s).rosaceaLevel == ResultIn(store).rosaceaLevel;
  }

  class UserPreferences {
    var store: Store

    ghost predicate Valid()
      reads this
    {
      WellTyped(store)
    }

    /** Opens the persisted store, which only this class ever writes. */
    constructor(persisted: Store)
      requires WellTyped(persisted)
      ensures store == persisted && Valid()
    {
      store := persisted;
    }

    function HasCompletedFirstAnalysis(): (r: bool)
      reads this
      ensures r <==> KeyCompletedFirstAnalysis in store && store[KeyCompletedFirstAnalysis] == PBool(true)
    {
      GetBoolean(store, KeyCompletedFirstAnalysis, false)
    }

    method SetCompletedFirstAnalysis(completed: bool)
      requires Valid()
      modifies this
      ensures store == old(store)[KeyCompletedFirstAnalysis := PBool(completed)] && Valid()
    {
      store := store[KeyCompletedFirstAnalysis := PBool(completed)];
    }

    method SaveLastSkinConditionResult(hasEczema: bool, eczemaLevel: string, hasAcne: bool, acneLevel: string,
                                       hasRosacea: bool, rosaceaLevel: string, isNormal: bool)
      requires Valid()
      modifies this
      ensures store == WithResult(old(store),
        SkinAnalysisResult(hasEczema, eczemaLevel, hasAcne, acneLevel, hasRosacea, rosaceaLevel, isNormal))
      ensures Valid()
    {
      store := store[KeyHasEczema := PBool(hasEczema)];
      store := store[KeyEczemaLevel := PString(eczemaLevel)];
      store := store[KeyHasAcne := PBool(hasAcne)];
      store := store[KeyAcneLevel := PString(acneLevel)];
      store := store[KeyHasRosacea := PBool(hasRosacea)];
      store := store[KeyRosaceaLevel := PString(rosaceaLevel)];
      store := store[KeyIsNormal := PBool(isNormal)];
      ResultRoundTrip(old(store),
        SkinAnalysisResult(hasEczema, eczemaLevel, hasAcne, acneLevel, hasRosacea, rosaceaLevel, isNormal));
    }

    /** A missing flag reads as false, a missing level as "Yok", a missing
        `is_normal` as true. */
    function GetLastSkinConditionResult(): (r: SkinAnalysisResult)
      reads this
      ensures KeyHasEczema !in store ==> !r.hasEczema
      ensures KeyHasAcne !in store ==> !r.hasAcne
      ensures KeyHasRosacea !in store ==> !r.hasRosacea
      ensures KeyIsNormal !in store ==> r.isNormal
      ensures KeyEczemaLevel !in store ==> r.eczemaLevel == "Yok"
      ensures KeyAcneLevel !in store ==> r.acneLevel == "Yok"
      ensures KeyRosaceaLevel !in store ==> r.rosaceaLevel == "Yok"
    {
      ResultIn(store)
    }

    method SaveAccessToken(token: string)
      requires Valid()
      modifies this
      ensures store == old(store)[KeyAccessToken := PString(token)] && Valid()
    {
      store := store[KeyAccessToken := PString(token)];
    }

    function GetAccessToken(): (r: Option<string>)
      reads this
      ensures r.Some? <==> KeyAccessToken in store && store[KeyAccessToken].PString?
      ensures r.Some? ==> store[KeyAccessToken] == PString(r.value)
    {
      GetString(store, KeyAccessToken)
    }

    method SaveRefreshToken(token: string)
      requires Valid()
      modifies this
      ensures store == old(store)[KeyRefreshToken := PString(token)] && Valid()
    {
      store := store[KeyRefreshToken := PString(token)];
    }

    function GetRefreshToken(): (r: Option<string>)
      reads this
      ensures r.Some? <==> KeyRefreshToken in store && store[KeyRefreshToken].PString?
      ensures r.Some? ==> store[KeyRefreshToken] == PString(r.value)
    {
      GetString(store, KeyRefreshToken)
    }

    method ClearTokens()
      requires Valid()
      modifies this
      ensures store == Without(old(store), TokenKeys) && Valid()
    {
      store := Without(store, TokenKeys);
      WithoutProps(old(store), TokenKeys);
    }

    method SaveUserName(name: string)
      requires Valid()
      modifies this
      ensures store == old(store)[KeyUserName := PString(name)] && Valid()
    {
      store := store[KeyUserName := PString(name)];
    }

    function GetUserName(): (r: Option<string>)
      reads this
      ensures r.Some? <==> KeyUserName in store && store[KeyUserName].PString?
      ensures r.Some? ==> store[KeyUserName] == PString(r.value)
    {
      GetString(store, KeyUserName)
    }

    method SaveUserEmail(email: string)
      requires Valid()
      modifies this
      ensures store == old(store)[KeyUserEmail := PString(email)] && Valid()
    {
      store := store[KeyUserEmail := PString(email)];
    }

    function GetUserEmail(): (r: Option<string>)
      reads this
      ensures r.Some? <==> KeyUserEmail in store && store[KeyUserEmail].PString?
      ensures r.Some? ==> store[KeyUserEmail] == PString(r.value)
    {
      GetString(store, KeyUserEmail)
    }

    method SaveUserId(userId: string)
      requires Valid()
      modifies this
      ensures store == old(store)[KeyUserId := PString(userId)] && Valid()
    {
      store := store[KeyUserId := PString(userId)];
    }

    function GetUserId(): (r: Option<string>)
      reads this
      ensures r.Some? <==> KeyUserId in store && store[KeyUserId].PString?
      ensures r.Some? ==> store[KeyUserId] == PString(r.value)
    {
      GetString(store, KeyUserId)
    }

    method ClearUserData()
      requires Valid()
      modifies this
      ensures store == Without(old(store), UserDataKeys) && Valid()
    {
      store := Without(store, UserDataKeys);
      WithoutProps(old(store), UserDataKeys);
    }
  }
}
