/**
 * The application shell: the configuration load, the shared list of places and the one shared
 * selection slot that both the chat cards and the map markers write, and the render precedence
 * of the loading, error and main screens.
 */
module AppState {
  import opened Wrappers
  import opened JsValues
  import opened Places

  const BackendError := "Could not connect to backend. Make sure server is running on port 3001."

  /** What the shell renders. */
  datatype Screen =
    | LoadingScreen
    | ErrorScreen(message: string)
    | MainView(apiKey: Option<Json>, places: seq<Place>, selected: Option<Place>)

  class App {
    /** `config.apiKey`; `None` is `undefined` (no key configured). */
    var apiKey: Option<Json>
    var places: seq<Place>
    var selectedPlace: Option<Place>
    var isLoading: bool
    var error: Option<string>

    constructor ()
      ensures apiKey == Some(JString("")) && places == [] && selectedPlace == None
      ensures isLoading && error == None
    {
      apiKey := Some(JString(""));
      places := [];
      selectedPlace := None;
      isLoading := true;
      error := None;
    }

    /** `initApp` with the outcome of `getMapConfig`; reading `apiKey` of `null` throws. */
    method InitApp(config: Result<Json, JsError>)
      modifies this
      ensures !isLoading
      ensures config.Ok? && config.value != JNull ==>
        apiKey == Field(config.value, "apiKey") && error == old(error)
      ensures !(config.Ok? && config.value != JNull) ==>
        error == Some(BackendError) && apiKey == old(apiKey)
      ensures places == old(places) && selectedPlace == old(selectedPlace)
    {
      if config.Ok? && config.value != JNull {
        apiKey := Field(config.value, "apiKey");
        isLoading := false;
      } else {
        error := Some(BackendError);
        isLoading := false;
      }
    }

    /** `handlePlacesUpdate`: the list is replaced; only a non-empty list moves the selection. */
    method HandlePlacesUpdate(newPlaces: seq<Place>)
      modifies this
      ensures places == newPlaces
      ensures newPlaces != [] ==> selectedPlace == Some(newPlaces[0])
      ensures newPlaces == [] ==> selectedPlace == old(selectedPlace)
      ensures apiKey == old(apiKey) && isLoading == old(isLoading) && error == old(error)
    {
      places := newPlaces;
      if |newPlaces| > 0 {
        selectedPlace := Some(newPlaces[0]);
      }
    }

    /** `handlePlaceSelect`: any place, listed or not, becomes the selection. */
    method HandlePlaceSelect(place: Place)
      modifies this
      ensures selectedPlace == Some(place)
      ensures places == old(places) && apiKey == old(apiKey)
      ensures isLoading == old(isLoading) && error == old(error)
    {
      selectedPlace := Some(place);
    }

    /** Loading first, then a truthy error, then the main view. */
    function Render(): (r: Screen)
      reads this
      ensures r == LoadingScreen <==> isLoading
      ensures r.ErrorScreen? <==> !isLoading && TruthyText(error)
      ensures r.ErrorScreen? ==> r.message == error.value
      ensures r.MainView? ==> r == MainView(apiKey, places, selectedPlace)
    {
      if isLoading then LoadingScreen
      else if TruthyText(error) then ErrorScreen(error.value)
      else MainView(apiKey, places, selectedPlace)
    }
  }

  /** After any configuration outcome the shell leaves the loading screen: a failure shows the
      backend message, a success with no earlier error shows the main view. */
  method InitThenRender(config: Result<Json, JsError>) returns (screen: Screen)
    ensures config.Ok? && config.value != JNull ==>
      screen == MainView(Field(config.value, "apiKey"), [], None)
    ensures !(config.Ok? && config.value != JNull) ==> screen == ErrorScreen(BackendError)
  {
    var app := new App();
    app.InitApp(config);
    screen := app.Render();
  }
}
