/**
 * The test component mux and the generic test component loader of
 * tests/test_globals/mod.rs.  The loader is generic over a component type
 * whose load id is `T::LOAD_ID`; here that id is the loader's `loadId`.
 */
module TestGlobals {
  import opened Wrappers
  import opened Load

  const BASIC_TEST_NUMBER_COMPONENT_LOAD_ID := "basic_test_number_component"
  const BASIC_TEST_BOOLEAN_COMPONENT_LOAD_ID := "basic_test_boolean_component"
  const BASIC_TEST_TEXT_COMPONENT_LOAD_ID := "basic_test_text_component"
  const BASIC_TEST_VECTOR_COMPONENT_LOAD_ID := "basic_test_vector_component"
  const BASIC_TEST_MAP_COMPONENT_LOAD_ID := "basic_test_map_component"
  const TEST_LOAD_PATH := "test_files/"

  /** `TestGlobalError`. */
  datatype TestGlobalError =
    | LoadIDMatchError(loadTypeId: string)
    | TestComponentLoadIDError(expectedId: string, actualId: string)

  /** The id check of `new` and `set_value`: the envelope's value, if the envelope is for `loadId`. */
  function CheckId(json: JsonLoad, loadId: string): (r: Result<Json, TestGlobalError>)
    ensures r.Ok? <==> json.loadTypeId == loadId
    ensures r.Ok? ==> r.value == json.actualValue
    ensures r.Err? ==> r.error == TestComponentLoadIDError(loadId, json.loadTypeId)
  {
    if json.loadTypeId == loadId then Ok(json.actualValue)
    else Err(TestComponentLoadIDError(loadId, json.loadTypeId))
  }

  /** `BasicTestComponentLoader<T>`. */
  class BasicTestComponentLoader {
    /** `T::LOAD_ID`. */
    const loadId: string
    const componentName: string
    var cachedValue: Json

    ghost predicate Valid()
    {
      componentName == loadId
    }

    constructor(loadId: string, cachedValue: Json)
      ensures this.loadId == loadId && this.cachedValue == cachedValue && Valid()
    {
      this.loadId := loadId;
      this.componentName := loadId;
      this.cachedValue := cachedValue;
    }

    /**
     * `load_component`: the component deserialised from the cached value by
     * `fromValue` (serde's `from_value::<T>`), or the deserialiser's error.
     */
    function LoadComponent<C>(fromValue: Json -> Result<C, string>): (r: Result<C, string>)
      reads this
      ensures r.Ok? <==> fromValue(cachedValue).Ok?
      ensures r.Ok? ==> r.value == fromValue(cachedValue).value
    {
      fromValue(cachedValue)
    }

    /** `set_value`: an envelope for another component is refused and the cached value kept. */
    method SetValue(newValue: JsonLoad) returns (r: Result<(), TestGlobalError>)
      requires Valid()
      modifies this
      ensures Valid()
      ensures r.Ok? <==> newValue.loadTypeId == loadId
      ensures r.Ok? ==> cachedValue == newValue.actualValue
      ensures r.Err? ==> cachedValue == old(cachedValue) && r.error == TestComponentLoadIDError(loadId, newValue.loadTypeId)
    {
      var checked := CheckId(newValue, loadId);
      if checked.Err? {
        return Err(checked.error);
      }
      cachedValue := checked.value;
      return Ok(());
    }

    /** `get_component_name`: the component's load id. */
    function GetComponentName(): (r: string)
      requires Valid()
      reads this
      ensures r == loadId
    {
      componentName
    }
  }

  /** `BasicTestComponentLoader::<T>::new`, for the component whose load id is `loadId`. */
  method NewLoader(json: JsonLoad, loadId: string) returns (r: Result<BasicTestComponentLoader, TestGlobalError>)
    ensures r.Ok? <==> CheckId(json, loadId).Ok?
    ensures r.Ok? ==> fresh(r.value) && r.value.Valid() && r.value.loadId == loadId && r.value.cachedValue == json.actualValue
    ensures r.Err? ==> r.error == CheckId(json, loadId).error
  {
    var checked := CheckId(json, loadId);
    if checked.Err? {
      return Err(checked.error);
    }
    var loader := new BasicTestComponentLoader(loadId, checked.value);
    return Ok(loader);
  }

  /**
   * `TestComponentMux::map_json_to_loader`: only the number component has a
   * loader; every other id, including the other test ids, is refused.
   */
  method MapJsonToLoader(json: JsonLoad) returns (r: Result<BasicTestComponentLoader, TestGlobalError>)
    ensures r.Ok? <==> json.loadTypeId == BASIC_TEST_NUMBER_COMPONENT_LOAD_ID
    ensures r.Ok? ==> fresh(r.value) && r.value.Valid() && r.value.loadId == BASIC_TEST_NUMBER_COMPONENT_LOAD_ID
                      && r.value.cachedValue == json.actualValue
    ensures r.Err? ==> r.error == LoadIDMatchError(json.loadTypeId)
  {
    if json.loadTypeId == BASIC_TEST_NUMBER_COMPONENT_LOAD_ID {
      r := NewLoader(json, BASIC_TEST_NUMBER_COMPONENT_LOAD_ID);
    } else {
      r := Err(LoadIDMatchError(json.loadTypeId));
    }
  }
}
