/**
 * Admin dashboard records (dashboard/models.py): widget configuration
 * rows, admin notes and audit log lines. Instants are integers and "now"
 * is a parameter.
 */
module Dashboard {
  import opened Wrappers

  // ---------------------------------------------------------------------
  // Widgets

  datatype WidgetType =
    | SalesChart | OrdersSummary | RecentOrders | StockLevels | CustomerActivity
    | Messages | Subscriptions | Revenue | TopProducts

  datatype Widget = Widget(id: string, userId: string, widgetType: WidgetType, title: string, position: nat, isEnabled: bool)

  /** `unique_together = ('user', 'widget_type')`. */
  ghost predicate OnePerType(rows: map<string, Widget>) {
    forall k1, k2 ::
      (k1 in rows && k2 in rows && rows[k1].userId == rows[k2].userId && rows[k1].widgetType == rows[k2].widgetType) ==> k1 == k2
  }

  /** Another row holds this widget's user and type. */
  predicate Taken(rows: map<string, Widget>, w: Widget) {
    exists k :: k in rows && k != w.id && rows[k].userId == w.userId && rows[k].widgetType == w.widgetType
  }

  /** The widget table; every row sits under its own key. */
  class WidgetTable {
    var rows: map<string, Widget>

    ghost predicate Valid()
      reads this
    {
      (forall k :: k in rows ==> rows[k].id == k) && OnePerType(rows)
    }

    constructor ()
      ensures Valid() && rows == map[]
    {
      rows := map[];
    }

    /**
     * Saving a widget: refused with `IntegrityError`, leaving the table as
     * it was, exactly when another row already has its user and type;
     * otherwise stored under its key. Either way at most one widget per
     * user and type remains.
     */
    method Save(w: Widget) returns (r: Result<()>)
      requires Valid()
      modifies this
      ensures Valid()
      ensures r.Err? <==> Taken(old(rows), w)
      ensures r.Err? ==> rows == old(rows) && r.error == "IntegrityError"
      ensures r.Ok? ==> rows == old(rows)[w.id := w]
    {
      if Taken(rows, w) {
        return Err("IntegrityError");
      }
      rows := rows[w.id := w];
      return Ok(());
    }
  }

  // ---------------------------------------------------------------------
  // Admin notes

  datatype Priority = Low | Medium | High

  /** The columns of an admin note. */
  datatype Note = Note(title: string, content: string, priority: Priority, isPinned: bool, isCompleted: bool, completedAt: Option<int>)

  /** `save(update_fields=['is_completed', 'completed_at'])`: only the completion columns are written. */
  function WriteCompletion(row: Note, n: Note): (r: Note)
    ensures r.isCompleted == n.isCompleted && r.completedAt == n.completedAt
    ensures r.(isCompleted := row.isCompleted, completedAt := row.completedAt) == row
  {
    row.(isCompleted := n.isCompleted, completedAt := n.completedAt)
  }

  /**
   * An admin note as loaded in memory (`current`) and as stored
   * (`stored`); unsaved edits to the other columns stay in memory only.
   */
  class AdminNote {
    var current: Note
    var stored: Note

    constructor (n: Note)
      ensures current == n && stored == n
    {
      current, stored := n, n;
    }

    /** `mark_completed`: completed at `now`, and only those two columns persisted. */
    method MarkCompleted(now: int)
      modifies this
      ensures current == old(current).(isCompleted := true, completedAt := Some(now))
      ensures stored == WriteCompletion(old(stored), current)
    {
      current := current.(isCompleted := true, completedAt := Some(now));
      stored := WriteCompletion(stored, current);
    }

    /**
     * `mark_incomplete`: back to not completed with no completion time,
     * only those two columns persisted; after `MarkCompleted` this restores
     * a note that was never completed.
     */
    method MarkIncomplete()
      modifies this
      ensures current == old(current).(isCompleted := false, completedAt := None)
      ensures stored == WriteCompletion(old(stored), current)
      ensures !old(current).isCompleted && old(current).completedAt.None? ==> current == old(current)
    {
      current := current.(isCompleted := false, completedAt := None);
      stored := WriteCompletion(stored, current);
    }
  }

  // ---------------------------------------------------------------------
  // Audit log

  datatype ActionType = Create | Update | Delete | View | Export | Login | Logout | Other

  /** `get_action_type_display()`. */
  function ActionDisplay(a: ActionType): string {
    match a
    case Create => "Create"
    case Update => "Update"
    case Delete => "Delete"
    case View => "View"
    case Export => "Export"
    case Login => "Login"
    case Logout => "Logout"
    case Other => "Other"
  }

  /**
   * `AuditLog.__str__`: who, the action and the model, separated by
   * " - "; a log whose user is gone reads "Unknown".
   */
  function AuditText(userEmail: Option<string>, action: ActionType, model: string): (r: string)
    ensures userEmail.None? ==> |r| >= 10 && r[..10] == "Unknown - "
    ensures userEmail.Some? ==> |r| >= |userEmail.value| && r[..|userEmail.value|] == userEmail.value
    ensures |r| >= |model| && r[|r| - |model|..] == model
  {
    userEmail.GetOr("Unknown") + " - " + ActionDisplay(action) + " - " + model
  }
}
