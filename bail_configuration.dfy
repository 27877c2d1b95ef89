/** The lease (bail) rules screen (components/BailConfiguration.tsx): the
    rule form and its two modals, and the three statistics over the rules. */
module BailConfiguration {
  import opened Wrappers
  import opened Decimal
  import opened Seqs

  /** A rule (lib/types/superadmin.ts). */
  datatype BailConfig = BailConfig(id: string, syndicatType: string, expiryDays: int, warningDays: int,
                                   autoDeactivate: bool, createdAt: string, updatedAt: string)

  datatype BailForm = BailForm(syndicatType: string, expiryDays: string, warningDays: string, autoDeactivate: bool)

  const DefaultForm := BailForm("", "", "", true)

  /** `openEditModal(config)`'s form. */
  function FormOf(c: BailConfig): BailForm {
    BailForm(c.syndicatType, IntToString(c.expiryDays), IntToString(c.warningDays), c.autoDeactivate)
  }

  /** The day counts in the form read back as the rule's numbers. */
  lemma FormOfReadsBack(c: BailConfig)
    ensures FormOf(c).syndicatType == c.syndicatType && FormOf(c).autoDeactivate == c.autoDeactivate
    ensures ParseInt(FormOf(c).expiryDays) == Some(c.expiryDays)
    ensures ParseInt(FormOf(c).warningDays) == Some(c.warningDays)
  {
    ParseIntToString(c.expiryDays);
    ParseIntToString(c.warningDays);
  }

  // ---------------------------------------------------------------- statistics

  /** 'Auto-Désactivation': `configs.filter(c => c.autoDeactivate).length`. */
  function AutoDeactivateCount(configs: seq<BailConfig>): nat {
    |Filter(configs, (c: BailConfig) => c.autoDeactivate)|
  }

  /** The count is the number of rules that deactivate automatically, and
      with those that do not it makes up the rule count. */
  lemma AutoDeactivateCountContract(configs: seq<BailConfig>)
    ensures AutoDeactivateCount(configs) == CountIf(configs, (c: BailConfig) => c.autoDeactivate)
    ensures AutoDeactivateCount(configs) <= |configs|
    ensures AutoDeactivateCount(configs) + CountIf(configs, (c: BailConfig) => !c.autoDeactivate) == |configs|
  {
    CountIfFilter(configs, (c: BailConfig) => c.autoDeactivate);
    CountIfSplit(configs, (c: BailConfig) => c.autoDeactivate);
  }

  /** `Math.round(x)` for `x = sum / n`: the nearest integer, halves
      rounded up. */
  function RoundedQuotient(sum: int, n: int): (r: int)
    requires n > 0
    ensures 2 * n * r <= 2 * sum + n < 2 * n * r + 2 * n
  {
    (2 * sum + n) / (2 * n)
  }

  /** 'Durée Moyenne': the mean of the expiry days rounded half up, or None
      where the page would show NaN for an empty list. */
  function AverageExpiryDays(configs: seq<BailConfig>): (avg: Option<int>)
    ensures avg.None? <==> |configs| == 0
  {
    if |configs| == 0 then None
    else Some(RoundedQuotient(SumOf(configs, (c: BailConfig) => c.expiryDays), |configs|))
  }

  /** The average is within half a day of the exact mean. */
  lemma AverageNearMean(configs: seq<BailConfig>)
    requires |configs| > 0
    ensures var n := |configs|;
            var sum := SumOf(configs, (c: BailConfig) => c.expiryDays);
            var avg := AverageExpiryDays(configs).value;
            2 * n * avg <= 2 * sum + n < 2 * n * avg + 2 * n
  {
  }

  /** When every rule's expiry lies between `lo` and `hi` days, so does the
      average. */
  lemma AverageBetween(configs: seq<BailConfig>, lo: int, hi: int)
    requires |configs| > 0
    requires forall i :: 0 <= i < |configs| ==> lo <= configs[i].expiryDays <= hi
    ensures lo <= AverageExpiryDays(configs).value <= hi
  {
    var n := |configs|;
    var sum := SumOf(configs, (c: BailConfig) => c.expiryDays);
    var avg := AverageExpiryDays(configs).value;
    SumOfBounds(configs, (c: BailConfig) => c.expiryDays, lo, hi);
    assert 2 * n * (avg + 1) == 2 * n * avg + 2 * n;
    CancelFactor(2 * n, lo, avg + 1);
    assert 2 * n * (hi + 1) == 2 * n * hi + 2 * n;
    CancelFactor(2 * n, avg, hi + 1);
  }

  /** A positive factor can be cancelled from a strict inequality. */
  lemma CancelFactor(k: int, a: int, b: int)
    requires k > 0 && k * a < k * b
    ensures a < b
  {
  }

  // ---------------------------------------------------------------- the screen

  class BailPage {
    var showCreateModal: bool
    var showEditModal: bool
    var selectedConfig: Option<BailConfig>
    var form: BailForm

    constructor ()
      ensures !showCreateModal && !showEditModal && selectedConfig.None? && form == DefaultForm
    {
      showCreateModal := false;
      showEditModal := false;
      selectedConfig := None;
      form := DefaultForm;
    }

    /** The four form inputs. */
    method EditForm(f: BailForm)
      modifies this
      ensures form == f && showCreateModal == old(showCreateModal) && showEditModal == old(showEditModal)
      ensures selectedConfig == old(selectedConfig)
    {
      form := f;
    }

    /** The 'Nouvelle Règle' button. */
    method OpenCreateModal()
      modifies this
      ensures showCreateModal && showEditModal == old(showEditModal)
      ensures selectedConfig == old(selectedConfig) && form == old(form)
    {
      showCreateModal := true;
    }

    method ResetForm()
      modifies this
      ensures form == DefaultForm && showCreateModal == old(showCreateModal) && showEditModal == old(showEditModal)
      ensures selectedConfig == old(selectedConfig)
    {
      form := DefaultForm;
    }

    method OpenEditModal(config: BailConfig)
      modifies this
      ensures selectedConfig == Some(config) && form == FormOf(config) && showEditModal
      ensures showCreateModal == old(showCreateModal)
    {
      selectedConfig := Some(config);
      form := FormOf(config);
      showEditModal := true;
    }

    /** `handleCreateConfig`: the rule itself is only logged. */
    method HandleCreateConfig()
      modifies this
      ensures !showCreateModal && form == DefaultForm
      ensures showEditModal == old(showEditModal) && selectedConfig == old(selectedConfig)
    {
      showCreateModal := false;
      ResetForm();
    }

    /** `handleEditConfig`: the change itself is only logged. */
    method HandleEditConfig()
      modifies this
      ensures !showEditModal && selectedConfig.None? && form == DefaultForm
      ensures showCreateModal == old(showCreateModal)
    {
      showEditModal := false;
      selectedConfig := None;
      ResetForm();
    }

    /** The modal's close and cancel buttons. */
    method Cancel()
      modifies this
      ensures !showCreateModal && !showEditModal && selectedConfig.None? && form == DefaultForm
    {
      showCreateModal := false;
      showEditModal := false;
      selectedConfig := None;
      ResetForm();
    }

    /** The modal's submit button: create while the create modal is open,
        else edit; with one modal open, both end closed. */
    method SubmitModal()
      modifies this
      ensures form == DefaultForm
      ensures old(showCreateModal) ==> !showCreateModal && showEditModal == old(showEditModal) &&
                                       selectedConfig == old(selectedConfig)
      ensures !old(showCreateModal) ==> !showCreateModal && !showEditModal && selectedConfig.None?
      ensures !(old(showCreateModal) && old(showEditModal)) ==> !showCreateModal && !showEditModal
    {
      if showCreateModal {
        HandleCreateConfig();
      } else {
        HandleEditConfig();
      }
    }
  }
}
