/** The per-user session state that the Streamlit pages share, as an explicit object.
    Each field is `None` until the page that owns it first stores it. */
module Session {
  import opened Results
  import opened CostTable
  import opened Materials

  class SessionState {
    /** `calculator_data`: the cost page's dict of cost name to Rs/Ton. */
    var calculatorData: Option<Table>
    /** `total_quantity`: the production quantity in tons last entered on the cost page. */
    var totalQuantity: Option<real>
    /** `materials`: the rate page's list of materials. */
    var materials: Option<seq<Material>>

    /** A new session holds none of the keys. */
    constructor ()
      ensures Valid()
      ensures calculatorData == None && totalQuantity == None && materials == None
    {
      calculatorData := None;
      totalQuantity := None;
      materials := None;
    }

    /** Once seeded, `calculator_data` is a well-formed dict that holds every fixed
        component: it is created with all of them and no key is ever removed. */
    predicate Valid()
      reads this
    {
      calculatorData.Some? ==>
        && calculatorData.value.Valid()
        && forall k :: k in CostInputs ==> k in calculatorData.value.values
    }
  }
}
