/**
  The subscription plans route: `GET /api/plans` lists the active plans,
  cheapest first; `POST /api/plans` validates and stores a new plan.
 */
module Plans {
  import opened Common
  import opened Domain
  import opened Seqs
  import opened Text

  /** The `price` body field: absent, a JSON number, or a JSON string. */
  datatype PriceField = PriceAbsent | PriceNumber(amount: int) | PriceText(text: string)

  /** The `features` body field: absent (defaults to `[]`), an array, or anything else. */
  datatype FeaturesField = FeaturesAbsent | FeatureItems(items: seq<string>) | FeaturesOther

  /** The request body; an absent `currency` or `duration` is `None`, an absent `name` is `""`. */
  datatype PlanRequest = PlanRequest(
    name: string,
    price: PriceField,
    currency: Option<string>,
    duration: Option<string>,
    features: FeaturesField)

  const DefaultCurrency := "PLN"
  const DefaultDuration := "monthly"

  /** `price` is truthy: present, not `0` and not `""`. */
  predicate PriceGiven(p: PriceField)
  {
    match p
    case PriceAbsent => false
    case PriceNumber(n) => n != 0
    case PriceText(t) => t != ""
  }

  predicate ValidDuration(d: string)
  {
    d == "monthly" || d == "yearly"
  }

  /** The stored feature list: an array is comma-joined, anything else is stored empty. */
  function StoredFeatures(f: FeaturesField): (r: string)
    ensures !f.FeatureItems? ==> r == ""
  {
    match f
    case FeaturesAbsent => Join([], ',')
    case FeatureItems(xs) => Join(xs, ',')
    case FeaturesOther => ""
  }

  /** `POST /api/plans`. */
  function CreatePlan(st: Store, req: PlanRequest, newId: string): (r: (Response<Plan>, Store))
    ensures r.0.Fail? ==> r.1 == st
    ensures (req.name == "" || !PriceGiven(req.price)) ==>
      r.0 == Fail(BadRequest, "Missing required fields: name, price")
    ensures (req.name != "" && PriceGiven(req.price) && !(req.price.PriceNumber? && req.price.amount > 0)) ==>
      r.0 == Fail(BadRequest, "Price must be a positive number")
    ensures (req.name != "" && req.price.PriceNumber? && req.price.amount > 0
             && !ValidDuration(req.duration.GetOr(DefaultDuration))) ==>
      r.0 == Fail(BadRequest, "Duration must be either \"monthly\" or \"yearly\"")
    ensures r.0.Ok? <==>
      req.name != "" && req.price.PriceNumber? && req.price.amount > 0 && ValidDuration(req.duration.GetOr(DefaultDuration))
    ensures r.0.Ok? ==>
      && r.1 == st.(plans := st.plans + [r.0.data])
      && r.0.data == Plan(newId, req.name, req.price.amount, req.currency.GetOr(DefaultCurrency),
                          req.duration.GetOr(DefaultDuration), StoredFeatures(req.features), true)
  {
    if req.name == "" || !PriceGiven(req.price) then
      (Fail(BadRequest, "Missing required fields: name, price"), st)
    else if !req.price.PriceNumber? || req.price.amount <= 0 then
      (Fail(BadRequest, "Price must be a positive number"), st)
    else
      var duration := req.duration.GetOr(DefaultDuration);
      if !ValidDuration(duration) then
        (Fail(BadRequest, "Duration must be either \"monthly\" or \"yearly\""), st)
      else
        var plan := Plan(newId, req.name, req.price.amount, req.currency.GetOr(DefaultCurrency),
                         duration, StoredFeatures(req.features), true);
        (Ok(plan), st.(plans := st.plans + [plan]))
  }

  /** A price sent as a string is never accepted, whatever its digits. */
  lemma TextPriceRefused(st: Store, req: PlanRequest, newId: string)
    requires req.price.PriceText?
    ensures CreatePlan(st, req, newId).0.Fail? && CreatePlan(st, req, newId).0.code == BadRequest
  {
  }

  /** Every stored plan has a positive price and a monthly or yearly duration. */
  ghost predicate ValidPlans(plans: seq<Plan>)
  {
    forall p :: p in plans ==> p.price > 0 && ValidDuration(p.duration)
  }

  lemma CreatePlanKeepsPlansValid(st: Store, req: PlanRequest, newId: string)
    requires ValidPlans(st.plans)
    ensures ValidPlans(CreatePlan(st, req, newId).1.plans)
  {
  }

  predicate CheaperFirst(a: Plan, b: Plan)
  {
    a.price <= b.price
  }

  /** `GET /api/plans`: the active plans, by ascending price. */
  function ListPlans(plans: seq<Plan>): (r: seq<Plan>)
    ensures multiset(r) == multiset(Filter(plans, (p: Plan) => p.isActive))
    ensures forall i :: 0 <= i < |r| ==> r[i] in plans && r[i].isActive
    ensures forall i :: 0 <= i < |plans| && plans[i].isActive ==> plans[i] in r
    ensures forall i, j :: 0 <= i < j < |r| ==> r[i].price <= r[j].price
  {
    var active := Filter(plans, (p: Plan) => p.isActive);
    var r := SortBy(active, CheaperFirst);
    assert Total(CheaperFirst) && Transitive(CheaperFirst);
    SortedAllPairs(r, CheaperFirst);
    forall i | 0 <= i < |r|
      ensures r[i] in plans && r[i].isActive
    {
      assert r[i] in multiset(active);
    }
    forall i | 0 <= i < |plans| && plans[i].isActive
      ensures plans[i] in r
    {
      assert plans[i] in multiset(active);
    }
    r
  }

  /** A newly created plan is listed straight away. */
  lemma CreatedPlanIsListed(st: Store, req: PlanRequest, newId: string)
    requires CreatePlan(st, req, newId).0.Ok?
    ensures CreatePlan(st, req, newId).0.data in ListPlans(CreatePlan(st, req, newId).1.plans)
  {
    var r := CreatePlan(st, req, newId);
    var ps := r.1.plans;
    assert ps[|ps| - 1] == r.0.data;
  }
}
