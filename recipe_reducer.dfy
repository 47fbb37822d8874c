/**
 * The `recipes` slice reducer: a total function from the current slice and
 * a dispatched action to the next slice. `ADD_RECIPE` merges, ten tags
 * replace the slice with the payload, every other tag leaves it as it is.
 */
module RecipeReducer {
  import opened JsValue
  import opened Effects

  const AddRecipe := "ADD_RECIPE"

  /** The tags whose case returns `action.payload`, spelt as the reducer spells them. */
  const ReplacingTags: seq<string> := [
    "UPDATE_RECIPE", "DELETE_RECIPE", "GET_RECIPE", "GET_RECIPES",
    "GET_FAVOURITE_RECIPE", "ADD_FAVOURITE_RECIPE", "REMOVE_FAVOURITE_RECIPE",
    "REVIEW_RECIPE", "UPVOTE_RECIPE", "DONWVOTE_RECIPE"
  ]

  predicate Recognised(tag: string) {
    tag == AddRecipe || tag in ReplacingTags
  }

  /** The default parameter `state = {}`: it applies to `undefined` only, not to `null`. */
  function Initial(state: Value): Value {
    if state == Undefined then Obj(map[]) else state
  }

  /** `Object.assign({}, state, {user: payload})`. */
  function WithUser(state: Value, payload: Value): Value {
    Obj(OwnProperties(state)["user" := payload])
  }

  /**
   * The reducer: `ADD_RECIPE` gives an object whose `user` is the payload,
   * a replacing tag gives the payload, and any other tag gives the
   * (defaulted) slice back.
   */
  function Reduce(state: Value, action: Action): (r: Value)
    ensures action.tag == AddRecipe ==> r.Obj? && "user" in r.props && r.props["user"] == action.payload
    ensures action.tag in ReplacingTags ==> r == action.payload
    ensures !Recognised(action.tag) ==> r == Initial(state)
  {
    var current := Initial(state);
    if action.tag == AddRecipe then WithUser(current, action.payload)
    else if action.tag in ReplacingTags then action.payload
    else current
  }

  /** An action whose tag matches no case returns the (defaulted) input slice. */
  lemma UnrecognisedIsNoOp(state: Value, action: Action)
    requires !Recognised(action.tag)
    ensures Reduce(state, action) == Initial(state)
    ensures state != Undefined ==> Reduce(state, action) == state
    ensures Reduce(Undefined, action) == Obj(map[])
  {
  }

  /**
   * `ADD_RECIPE` yields an object whose `user` is the payload and which
   * keeps every other property of an object slice; the input is a value and
   * is left as it was.
   */
  lemma AddRecipeSetsUser(state: Value, payload: Value)
    ensures var r := Reduce(state, Action(AddRecipe, payload));
      && r.Obj?
      && "user" in r.props && r.props["user"] == payload
      && (state.Obj? ==> r.props.Keys == state.props.Keys + {"user"})
      && (state.Obj? ==> forall k :: k in state.props && k != "user" ==> r.props[k] == state.props[k])
      && (IsNullish(state) ==> r.props == map["user" := payload])
  {
  }

  /** Each of the ten replacing tags returns the payload itself, whatever the slice was. */
  lemma ReplacingTagsReplace(state: Value, action: Action)
    requires action.tag in ReplacingTags
    ensures Reduce(state, action) == action.payload
  {
    assert action.tag != AddRecipe;
  }

  /** There are ten distinct replacing tags, none of them `ADD_RECIPE`. */
  lemma TenReplacingTags()
    ensures |ReplacingTags| == 10
    ensures forall i, j :: 0 <= i < j < |ReplacingTags| ==> ReplacingTags[i] != ReplacingTags[j]
    ensures AddRecipe !in ReplacingTags
  {
  }

  /**
   * Tags match by exact string: the misspelt "DONWVOTE_RECIPE" replaces the
   * slice, while a correctly spelt "DOWNVOTE_RECIPE" does nothing.
   */
  lemma DownvoteSpelling(state: Value, payload: Value)
    ensures Reduce(state, Action("DONWVOTE_RECIPE", payload)) == payload
    ensures Reduce(state, Action("DOWNVOTE_RECIPE", payload)) == Initial(state)
  {
    assert "DOWNVOTE_RECIPE" !in ReplacingTags;
  }

  /** Reducing the same action a second time changes nothing, for every tag. */
  lemma {:induction false} ReduceIdempotent(state: Value, action: Action)
    ensures Reduce(Reduce(state, action), action) == Reduce(state, action)
  {
    var once := Reduce(state, action);
    if action.tag == AddRecipe {
      var m := OwnProperties(Initial(state))["user" := action.payload];
      assert once == Obj(m);
      assert OwnProperties(Initial(once)) == m;
      assert m["user" := action.payload] == m;
    } else if action.tag in ReplacingTags {
    } else {
      assert once == Initial(state);
      assert Initial(once) == once;
    }
  }
}
