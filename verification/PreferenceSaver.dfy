/**
 * One renderer's saver as the source keeps it (shell/ezil/native-persistence.js), over the host's stored desktop.
 */
module PreferenceSaver {
  import opened Options
  import opened Preferences
  import opened PreferenceRuns

  class StoredDesktop {
    var preferences: Input

    constructor (preferences: Input)
      ensures this.preferences == preferences
    {
      this.preferences := preferences;
    }
  }

  class DesktopSaver {
    const stored: StoredDesktop
    var committed: Desktop
    var last: Option<Desktop>
    var queue: seq<Desktop>

    ghost function State(): Renderer
      reads this
    {
      Renderer(committed, last, queue)
    }

    // A renderer starts from what it read, normalised for its own screen.
    constructor (stored: StoredDesktop, screen: Screen)
      ensures this.stored == stored
      ensures var preferences := Safe(stored.preferences, screen);
          State() == Renderer(preferences, Some(preferences), [])
    {
      this.stored := stored;
      var preferences := SafeDesktopPreferences(stored.preferences, screen);
      committed, last, queue := preferences, Some(preferences), [];
    }

    // Queues a save unless nothing differs from what is saved or about to be.
    method Flush(captured: Input, screen: Screen)
      modifies this
      ensures State() == PreferenceRuns.Flush(old(State()), Safe(captured, screen))
    {
      var preferences := SafeDesktopPreferences(captured, screen);
      if last == Some(preferences) { return; }
      last := Some(preferences);
      queue := queue + [preferences];
    }

    // The next queued save, alone under the lock: read, merge, write. `outcome` is what the host makes of it.
    method Save(outcome: Outcome)
      requires queue != []
      modifies this, stored
      ensures State() == Settle(old(State()), outcome.Written?)
      ensures stored.preferences
           == if outcome.ReadFails? || outcome.WriteFails? then old(stored.preferences)
              else Again(Merge(old(stored.preferences), old(committed), old(queue)[0]))
    {
      var preferences := queue[0];
      queue := queue[1..];
      var ok := false;
      if outcome != ReadFails {
        var merged := MergeInto(stored.preferences, committed, preferences);
        if outcome != WriteFails { stored.preferences := Again(merged); }
        if outcome == Written {
          committed := preferences;
          ok := true;
        }
      }
      if !ok && last == Some(preferences) { last := None; }
    }
  }
}
