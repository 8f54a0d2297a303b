/** Connectivity as the conjunction of the last probe and the manual switch. */
module Connectivity {
  import opened Options

  /**
   Both ways of changing the status compare `isOnline()` before and after and announce only a
   difference; the announcement, if any, is returned to be handed to the status handlers.
   */
  class ConnectivityDetector {
    var online: bool
    var forcedOffline: bool

    constructor ()
      ensures online && !forcedOffline
    {
      online, forcedOffline := true, false;
    }

    function IsOnline(): bool
      reads this
    {
      online && !forcedOffline
    }

    method SetForcedOffline(enabled: bool) returns (announced: Option<bool>)
      modifies this
      ensures forcedOffline == enabled && online == old(online)
      ensures announced == if old(IsOnline()) != IsOnline() then Some(IsOnline()) else None
    {
      var wasOnline := IsOnline();
      forcedOffline := enabled;
      var nowOnline := IsOnline();
      announced := if wasOnline != nowOnline then Some(nowOnline) else None;
    }

    /** The part of `check` after the probe has answered. */
    method Check(reachable: bool) returns (announced: Option<bool>)
      modifies this
      ensures online == reachable && forcedOffline == old(forcedOffline)
      ensures announced == if old(IsOnline()) != IsOnline() then Some(IsOnline()) else None
    {
      var wasOnline := online;
      online := reachable;
      var wasEffectiveOnline := wasOnline && !forcedOffline;
      var effectiveOnline := IsOnline();
      announced := if wasEffectiveOnline != effectiveOnline then Some(effectiveOnline) else None;
    }
  }
}
