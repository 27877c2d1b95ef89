/** The subscription plans screen (components/SubscriptionPlans.tsx): the
    search over the plans, the plan form with its feature list, the
    create/edit modals, and the icon and colour picked from a plan's name. */
module SubscriptionPlans {
  import opened Wrappers
  import opened Text
  import opened Decimal
  import opened Seqs

  /** A plan (lib/types/superadmin.ts); price and duration are whole
      numbers here. */
  datatype Plan = Plan(id: string, name: string, description: string, price: int, currency: string,
                       duration: int, features: seq<string>, isActive: bool)

  /** The form state, every numeric field held as the text of its input. */
  datatype PlanForm = PlanForm(name: string, description: string, price: string, currency: string,
                               duration: string, maxMembers: string, maxBranches: string,
                               maxPublications: string, maxEvents: string, maxProducts: string,
                               maxServices: string, features: seq<string>, isActive: bool)

  /** The form as `useState` and `resetForm` set it. */
  const DefaultForm := PlanForm("", "", "", "EUR", "30", "", "", "", "", "", "", [], true)

  // ---------------------------------------------------------------- search

  predicate MatchesSearch(p: Plan, search: string) {
    ContainsIgnoringCase(p.name, search) || ContainsIgnoringCase(p.description, search)
  }

  /** `filteredPlans`. */
  function FilterPlans(plans: seq<Plan>, search: string): seq<Plan> {
    Filter(plans, p => MatchesSearch(p, search))
  }

  /** A plan is listed iff it is one of the plans and its name or
      description contains the search, ignoring case; the list keeps the
      plans' order. */
  lemma FilterPlansContract(plans: seq<Plan>, search: string, p: Plan)
    ensures p in FilterPlans(plans, search) <==> p in plans && MatchesSearch(p, search)
    ensures IsSubseq(FilterPlans(plans, search), plans)
  {
    FilterMembers(plans, q => MatchesSearch(q, search), p);
    FilterIsSubseq(plans, q => MatchesSearch(q, search));
  }

  /** An empty search lists every plan. */
  lemma EmptySearchKeepsAll(plans: seq<Plan>)
    ensures FilterPlans(plans, "") == plans
  {
    forall i | 0 <= i < |plans| ensures MatchesSearch(plans[i], "") {
      ContainsIgnoringCaseEmpty(plans[i].name);
    }
    FilterAll(plans, q => MatchesSearch(q, ""));
  }

  // ---------------------------------------------------------------- features

  /** `addFeature`: the form and feature input after it. */
  function AddFeature(form: PlanForm, newFeature: string): (r: (PlanForm, string))
    ensures Trim(newFeature) != "" ==> r.0 == form.(features := form.features + [Trim(newFeature)]) && r.1 == ""
    ensures Trim(newFeature) == "" ==> r == (form, newFeature)
  {
    if Trim(newFeature) != "" then (form.(features := form.features + [Trim(newFeature)]), "")
    else (form, newFeature)
  }

  /** `features.filter((_, i) => i !== index)`. */
  function RemoveAt(xs: seq<string>, index: int): seq<string> {
    if xs == [] then []
    else if index == 0 then xs[1..]
    else [xs[0]] + RemoveAt(xs[1..], index - 1)
  }

  /** Removing deletes exactly position `index` and keeps the rest in
      order; an index outside the list removes nothing. */
  lemma {:induction false} RemoveAtContract(xs: seq<string>, index: int)
    ensures 0 <= index < |xs| ==> RemoveAt(xs, index) == xs[..index] + xs[index + 1..]
    ensures !(0 <= index < |xs|) ==> RemoveAt(xs, index) == xs
  {
    if xs != [] && index != 0 {
      RemoveAtContract(xs[1..], index - 1);
      if 0 <= index < |xs| {
        assert xs[1..][..index - 1] == xs[1..index];
        assert [xs[0]] + xs[1..index] == xs[..index];
      }
    }
  }

  /** Removing the feature just added gives back the list before it. */
  lemma RemoveUndoesAdd(form: PlanForm, newFeature: string)
    requires Trim(newFeature) != ""
    ensures var added := AddFeature(form, newFeature).0;
            RemoveAt(added.features, |added.features| - 1) == form.features
  {
    var added := AddFeature(form, newFeature).0;
    RemoveAtContract(added.features, |added.features| - 1);
    assert added.features[..|added.features| - 1] == form.features;
  }

  // ---------------------------------------------------------------- the form

  /** `openEditModal(plan)`'s form: text fields and the switch as they are,
      a copy of the features, price and duration as decimal text, and the
      six limits empty. */
  function FormOf(p: Plan): PlanForm {
    PlanForm(p.name, p.description, IntToString(p.price), p.currency, IntToString(p.duration),
             "", "", "", "", "", "", p.features, p.isActive)
  }

  /** The price and duration inputs read back as the plan's numbers. */
  lemma FormOfReadsBack(p: Plan)
    ensures ParseInt(FormOf(p).price) == Some(p.price) && ParseInt(FormOf(p).duration) == Some(p.duration)
    ensures FormOf(p).features == p.features && FormOf(p).name == p.name && FormOf(p).isActive == p.isActive
    ensures FormOf(p).maxMembers == "" && FormOf(p).maxServices == ""
  {
    ParseIntToString(p.price);
    ParseIntToString(p.duration);
  }

  // ---------------------------------------------------------------- icon and colour

  datatype PlanIcon = Crown | Star | Zap | TrendingUp

  /** `getPlanIcon(name)`. */
  function GetPlanIcon(name: string): PlanIcon {
    if ContainsIgnoringCase(name, "enterprise") then Crown
    else if ContainsIgnoringCase(name, "professional") || ContainsIgnoringCase(name, "pro") then Star
    else if ContainsIgnoringCase(name, "starter") then Zap
    else TrendingUp
  }

  /** `getPlanColor(name)`. */
  function GetPlanColor(name: string): string {
    if ContainsIgnoringCase(name, "enterprise") then "from-purple-500 to-purple-600"
    else if ContainsIgnoringCase(name, "professional") || ContainsIgnoringCase(name, "pro") then "from-blue-500 to-blue-600"
    else if ContainsIgnoringCase(name, "starter") then "from-emerald-500 to-emerald-600"
    else "from-gray-500 to-gray-600"
  }

  /** The colour each icon goes with. */
  function IconColor(icon: PlanIcon): string {
    match icon
    case Crown => "from-purple-500 to-purple-600"
    case Star => "from-blue-500 to-blue-600"
    case Zap => "from-emerald-500 to-emerald-600"
    case TrendingUp => "from-gray-500 to-gray-600"
  }

  /** Both pickers run the same tests in the same order, so a card's colour
      is always the one of its icon. */
  lemma IconAndColorAgree(name: string)
    ensures GetPlanColor(name) == IconColor(GetPlanIcon(name))
  {
  }

  /** 'professional' contains 'pro', so the test for it never decides
      anything: a name is starred iff it contains 'pro' but not
      'enterprise'. */
  lemma ProfessionalTestRedundant(name: string)
    ensures GetPlanIcon(name) == Star <==>
            !ContainsIgnoringCase(name, "enterprise") && ContainsIgnoringCase(name, "pro")
  {
    assert Lower("professional") == Lower("pro") + "fessional";
    if ContainsIgnoringCase(name, "professional") {
      ContainsParts(Lower(name), Lower("pro"), "fessional");
    }
  }

  // ---------------------------------------------------------------- the screen

  class PlansPage {
    var searchTerm: string
    var showCreateModal: bool
    var showEditModal: bool
    var selectedPlan: Option<Plan>
    var form: PlanForm
    var newFeature: string

    constructor ()
      ensures searchTerm == "" && !showCreateModal && !showEditModal && selectedPlan.None?
      ensures form == DefaultForm && newFeature == ""
    {
      searchTerm := "";
      showCreateModal := false;
      showEditModal := false;
      selectedPlan := None;
      form := DefaultForm;
      newFeature := "";
    }

    /** The search box, the form inputs and the feature input. */
    method Edit(search: string, f: PlanForm, feature: string)
      modifies this
      ensures searchTerm == search && form == f && newFeature == feature
      ensures showCreateModal == old(showCreateModal) && showEditModal == old(showEditModal)
      ensures selectedPlan == old(selectedPlan)
    {
      searchTerm, form, newFeature := search, f, feature;
    }

    method OpenCreateModal()
      modifies this
      ensures showCreateModal && showEditModal == old(showEditModal) && selectedPlan == old(selectedPlan)
      ensures form == old(form) && newFeature == old(newFeature) && searchTerm == old(searchTerm)
    {
      showCreateModal := true;
    }

    method ResetForm()
      modifies this
      ensures form == DefaultForm && newFeature == ""
      ensures showCreateModal == old(showCreateModal) && showEditModal == old(showEditModal)
      ensures selectedPlan == old(selectedPlan) && searchTerm == old(searchTerm)
    {
      form := DefaultForm;
      newFeature := "";
    }

    method AddFeatureClicked()
      modifies this
      ensures (form, newFeature) == AddFeature(old(form), old(newFeature))
      ensures showCreateModal == old(showCreateModal) && showEditModal == old(showEditModal)
      ensures selectedPlan == old(selectedPlan) && searchTerm == old(searchTerm)
    {
      var feature := Trim(newFeature);
      if feature != "" {
        form := form.(features := form.features + [feature]);
        newFeature := "";
      }
    }

    method RemoveFeatureClicked(index: int)
      modifies this
      ensures form == old(form).(features := RemoveAt(old(form).features, index))
      ensures newFeature == old(newFeature) && showCreateModal == old(showCreateModal)
      ensures showEditModal == old(showEditModal) && selectedPlan == old(selectedPlan)
      ensures searchTerm == old(searchTerm)
    {
      form := form.(features := RemoveAt(form.features, index));
    }

    method OpenEditModal(plan: Plan)
      modifies this
      ensures selectedPlan == Some(plan) && form == FormOf(plan) && showEditModal
      ensures showCreateModal == old(showCreateModal) && newFeature == old(newFeature)
      ensures searchTerm == old(searchTerm)
    {
      selectedPlan := Some(plan);
      form := FormOf(plan);
      showEditModal := true;
    }

    /** `handleCreatePlan`: the plan itself is only logged. */
    method HandleCreatePlan()
      modifies this
      ensures !showCreateModal && form == DefaultForm && newFeature == ""
      ensures showEditModal == old(showEditModal) && selectedPlan == old(selectedPlan)
      ensures searchTerm == old(searchTerm)
    {
      showCreateModal := false;
      ResetForm();
    }

    /** `handleEditPlan`: the change itself is only logged. */
    method HandleEditPlan()
      modifies this
      ensures !showEditModal && selectedPlan.None? && form == DefaultForm && newFeature == ""
      ensures showCreateModal == old(showCreateModal) && searchTerm == old(searchTerm)
    {
      showEditModal := false;
      selectedPlan := None;
      ResetForm();
    }

    /** The modal's close and cancel buttons. */
    method CloseModal()
      modifies this
      ensures !showCreateModal && !showEditModal && selectedPlan.None? && form == DefaultForm && newFeature == ""
      ensures searchTerm == old(searchTerm)
    {
      showCreateModal := false;
      showEditModal := false;
      selectedPlan := None;
      ResetForm();
    }

    /** The modal's submit button: create while the create modal is open,
        else edit. */
    method SubmitModal()
      modifies this
      ensures form == DefaultForm && newFeature == "" && searchTerm == old(searchTerm)
      ensures old(showCreateModal) ==> !showCreateModal && showEditModal == old(showEditModal) &&
                                       selectedPlan == old(selectedPlan)
      ensures !old(showCreateModal) ==> !showEditModal && selectedPlan.None? && !showCreateModal
    {
      if showCreateModal {
        HandleCreatePlan();
      } else {
        HandleEditPlan();
      }
    }
  }
}
