/**
  Running the action behind a user right. Only `Render` has an action; it is
  created on first use and then reused.
*/
module UserRightActions {
  import opened UserRights
  import opened Users

  /** `RenderAction`; its `Make` is outside this model and is recorded in the processor's log. */
  class RenderAction {
    constructor ()
    {
    }
  }

  class UserRightActionProcessor {
    /** `_cashedActions`. */
    var cachedActions: map<UserRight, RenderAction>
    /** The actions whose `Make` ran, in order. */
    ghost var made: seq<RenderAction>

    /** Only `Render` ever gets an action. */
    ghost predicate Valid()
      reads this
    {
      cachedActions.Keys <= {Render}
    }

    constructor ()
      ensures Valid() && cachedActions == map[] && made == []
    {
      cachedActions := map[];
      made := [];
    }

    /**
      `MakeAction` for the current `user`: nothing without the right; the
      cached action when there is one; a new `RenderAction`, cached, for a
      first `Render`; nothing for any other right.
    */
    method MakeAction(user: User, right: UserRight)
      requires Valid()
      modifies this
      ensures Valid()
      ensures !user.HasRights([right]) ==> cachedActions == old(cachedActions) && made == old(made)
      ensures user.HasRights([right]) && right in old(cachedActions) ==>
                cachedActions == old(cachedActions) && made == old(made) + [cachedActions[right]]
      ensures user.HasRights([right]) && right !in old(cachedActions) && right == Render ==>
                right in cachedActions && fresh(cachedActions[right]) &&
                cachedActions == old(cachedActions)[right := cachedActions[right]] &&
                made == old(made) + [cachedActions[right]]
      ensures user.HasRights([right]) && right !in old(cachedActions) && right != Render ==>
                cachedActions == old(cachedActions) && made == old(made)
    {
      if !user.HasRights([right]) {
        return;
      }
      var action: RenderAction;
      if right in cachedActions {
        action := cachedActions[right];
      } else {
        if right == Render {
          action := new RenderAction();
        } else {
          return;
        }
        cachedActions := cachedActions[right := action];
      }
      made := made + [action];
    }
  }
}
