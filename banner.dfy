/**
  The dismissible advertising banner (components/Banner.tsx): hidden at
  first, shown on mount unless a dismissal is on record in the browser
  store, and hidden for good once dismissed.
*/
module Banner {
  import opened Types
  import opened LocalStorage
  import Statistics

  const BannerKey: string := "eliteSimulaProBannerDismissed"

  /**
    `!localStorage.getItem(key)`: the dismissal is missing when the key is
    absent (null) or holds the empty string, the two falsy values getItem can
    return.
  */
  predicate NotDismissed(items: map<string, StoredValue>)
    ensures BannerKey !in items ==> NotDismissed(items)
    ensures BannerKey in items && items[BannerKey] == Text("true") ==> !NotDismissed(items)
  {
    BannerKey !in items || items[BannerKey] == Text("")
  }

  /** The store content after handleDismiss. */
  function Dismissed(items: map<string, StoredValue>): (after: map<string, StoredValue>)
    ensures BannerKey in after && after[BannerKey] == Text("true")
    ensures forall k :: k != BannerKey ==> (k in after <==> k in items)
    ensures forall k :: k != BannerKey && k in items ==> after[k] == items[k]
  {
    items[BannerKey := Text("true")]
  }

  /** Once dismissed, the banner stays hidden on every later mount. */
  lemma DismissIsPermanent(items: map<string, StoredValue>)
    ensures !NotDismissed(Dismissed(items))
  {
  }

  /**
    The statistics log lives under another key: saving or clearing it never
    brings a dismissed banner back, nor hides one not dismissed.
  */
  lemma StatisticsLeaveBannerAlone(items: map<string, StoredValue>, result: QuizResult)
    ensures NotDismissed(Statistics.Saved(items, result)) <==> NotDismissed(items)
    ensures NotDismissed(Statistics.Cleared(items)) <==> NotDismissed(items)
  {
    assert BannerKey != Statistics.StatsKey;
  }

  /** The banner's log of the dismissal and the statistics log do not disturb each other. */
  lemma DismissLeavesStatisticsAlone(items: map<string, StoredValue>)
    ensures Statistics.StoredResults(Dismissed(items)) == Statistics.StoredResults(items)
  {
    assert BannerKey != Statistics.StatsKey;
  }

  class Banner {
    var isVisible: bool
    const storage: Storage

    /** useState(false): hidden until the mount effect has run. */
    constructor (storage: Storage)
      ensures this.storage == storage && !isVisible
    {
      this.storage := storage;
      isVisible := false;
    }

    /** The mount effect: show the banner when no dismissal is on record, otherwise leave it as it is. */
    method Mount()
      modifies this`isVisible
      ensures NotDismissed(storage.items) ==> isVisible
      ensures !NotDismissed(storage.items) ==> isVisible == old(isVisible)
    {
      var isDismissed := storage.GetItem(BannerKey);
      if isDismissed.None? || isDismissed.value == Text("") {
        isVisible := true;
      }
    }

    /** handleDismiss: record the dismissal and hide the banner. */
    method Dismiss()
      modifies this`isVisible, storage
      ensures !isVisible
      ensures storage.items == Dismissed(old(storage.items))
      ensures !NotDismissed(storage.items)
    {
      storage.SetItem(BannerKey, Text("true"));
      isVisible := false;
    }
  }
}
