/** The non-UI half of the demo screen: a data manager that reports one
    simulated success or failure in four shapes, a view model that turns each
    shape into a display string, and the colour cue each row derives from it. */
module ContentView {
  import opened SwiftTypes
  import opened Strings

  /** The `(title: String?, error: Error?)` tuple returned by `getTitleTitle2`. */
  datatype TitleAndError = TitleAndError(title: Option<string>, error: Option<Error>)

  /** The foreground colour of a title row. */
  datatype RowColor = Red | Green

  /** A row is red exactly when its value contains "Error". */
  function TitleRowColor(value: string): (c: RowColor)
    ensures c == Red <==> exists i: nat :: OccursAt(value, "Error", i)
  {
    ContainsIffOccurs(value, "Error");
    if Contains(value, "Error") then Red else Green
  }

  /** The four display strings a fetch produces: the reference the view model
      is proved against. */
  function Expected(isActive: bool): (r: seq<string>)
    ensures |r| == 4
    ensures !isActive ==> forall i :: 0 <= i < |r| ==> "Error: " <= r[i]
    ensures !isActive ==> r[0] == "Error: No Title"
  {
    if isActive then ["Title 1", "Title 2", "Title 3", "Title 4"]
    else ["Error: No Title", "Error: " + ErrDesc, "Error: " + ErrDesc, "Error: " + ErrDesc]
  }

  /** After a fetch all four rows share one colour: green on success, red on
      failure. */
  lemma RowsShareColor(isActive: bool)
    ensures forall i :: 0 <= i < 4 ==>
      TitleRowColor(Expected(isActive)[i]) == (if isActive then Green else Red)
  {
    var r := Expected(isActive);
    forall i | 0 <= i < 4
      ensures TitleRowColor(r[i]) == (if isActive then Green else Red)
    {
      if isActive {
        assert 'E' !in r[i];
        if Contains(r[i], "Error") {
          ContainsFirstChar(r[i], "Error");
        }
      } else {
        ContainsPrefix("Error", r[i][|"Error"|..]);
        assert "Error" + r[i][|"Error"|..] == r[i];
      }
    }
  }

  /** Toggling the flag between two fetches flips the colour of all four rows. */
  lemma ToggleFlipsAllRows(before: bool, after: bool)
    requires before != after
    ensures forall i :: 0 <= i < 4 ==>
      TitleRowColor(Expected(before)[i]) != TitleRowColor(Expected(after)[i])
  {
    RowsShareColor(before);
    RowsShareColor(after);
  }

  /** `DoTryCatchDataManager`: one flag decides whether every getter succeeds. */
  class DoTryCatchDataManager {
    var isActive: bool

    constructor ()
      ensures !isActive
    {
      isActive := false;
    }

    /** `getTitle1`: the optional shape. */
    function GetTitle1(): (r: Option<string>)
      reads this
      ensures r.Some? <==> isActive
      ensures r.Some? ==> r.value == "Title 1"
    {
      if isActive then Some("Title 1") else None
    }

    /** `getTitleTitle2`: the tuple shape, with exactly one side filled. */
    function GetTitleTitle2(): (r: TitleAndError)
      reads this
      ensures r.title.Some? != r.error.Some?
      ensures r.title.Some? <==> isActive
      ensures r.title.Some? ==> r.title.value == "Title 2"
      ensures r.error.Some? ==> r.error.value == URLError(BadURL)
    {
      if isActive then TitleAndError(Some("Title 2"), None)
      else TitleAndError(None, Some(URLError(BadURL)))
    }

    /** `getTitle3`: the `Result` shape. */
    function GetTitle3(): (r: Result<string, Error>)
      reads this
      ensures r.Success? <==> isActive
      ensures r.Success? ==> r.value == "Title 3"
      ensures r.Failure? ==> r.error == URLError(BadURL)
    {
      if isActive then Success("Title 3") else Failure(URLError(BadURL))
    }

    /** `getTitle4`: the throwing shape; the `throw` is a returned variant. */
    function GetTitle4(): (r: Throwing<string>)
      reads this
      ensures r.Returns? <==> isActive
      ensures r.Returns? ==> r.value == "Title 4"
      ensures r.Throws? ==> r.error == URLError(BadURL)
    {
      if isActive then Returns("Title 4") else Throws(URLError(BadURL))
    }
  }

  /** The four getters succeed together or fail together. */
  lemma GettersAgree(m: DoTryCatchDataManager)
    ensures m.GetTitle1().Some? == m.GetTitleTitle2().title.Some?
    ensures m.GetTitleTitle2().title.Some? == m.GetTitle3().Success?
    ensures m.GetTitle3().Success? == m.GetTitle4().Returns?
  {
  }

  /** `DoTryCatchViewModel`: four display strings filled in by a fetch. */
  class DoTryCatchViewModel {
    var title1: string
    var title2: string
    var title3: string
    var title4: string

    const manager: DoTryCatchDataManager

    /** The four rows, in display order. */
    function Titles(): seq<string>
      reads this
    {
      [title1, title2, title3, title4]
    }

    constructor ()
      ensures Titles() == ["Loading...", "Loading...", "Loading...", "Loading..."]
      ensures fresh(manager) && !manager.isActive
    {
      title1 := "Loading...";
      title2 := "Loading...";
      title3 := "Loading...";
      title4 := "Loading...";
      manager := new DoTryCatchDataManager();
    }

    /** `fetchAllTitles`: calls each getter in turn and overwrites one field
        per getter with its title or an "Error: " message. */
    method FetchAllTitles()
      modifies this
      ensures Titles() == Expected(manager.isActive)
      ensures manager.isActive == old(manager.isActive)
      ensures forall i :: 0 <= i < 4 ==>
        TitleRowColor(Titles()[i]) == (if manager.isActive then Green else Red)
    {
      // 1. the optional
      match manager.GetTitle1() {
        case Some(fetchedTitle1) => title1 := fetchedTitle1;
        case None => title1 := "Error: No Title";
      }

      // 2. the tuple; its "Unknown Error" fallback cannot be reached
      var titleResult := manager.GetTitleTitle2();
      match titleResult.title {
        case Some(fetchedTitle2) => title2 := fetchedTitle2;
        case None =>
          var description := match titleResult.error {
            case Some(error) => LocalizedDescription(error)
            case None => assert false; "Unknown Error"
          };
          title2 := "Error: " + description;
      }

      // 3. the Result
      match manager.GetTitle3() {
        case Success(fetchedTitle3) => title3 := fetchedTitle3;
        case Failure(error) => title3 := "Error: " + LocalizedDescription(error);
      }

      // 4. do/try/catch
      match manager.GetTitle4() {
        case Returns(fetchedTitle4) => title4 := fetchedTitle4;
        case Throws(error) => title4 := "Error: " + LocalizedDescription(error);
      }
      RowsShareColor(manager.isActive);
    }
  }

  /** Toggling the flag between two fetches flips the colour of every row. */
  method FetchToggleFetch(vm: DoTryCatchViewModel) returns (before: seq<string>, after: seq<string>)
    modifies vm, vm.manager
    ensures vm.manager.isActive == !old(vm.manager.isActive)
    ensures before == Expected(old(vm.manager.isActive)) && after == vm.Titles()
    ensures |before| == |after| == 4
    ensures forall i :: 0 <= i < 4 ==> TitleRowColor(before[i]) != TitleRowColor(after[i])
  {
    vm.FetchAllTitles();
    before := vm.Titles();
    vm.manager.isActive := !vm.manager.isActive;
    vm.FetchAllTitles();
    after := vm.Titles();
    ToggleFlipsAllRows(!vm.manager.isActive, vm.manager.isActive);
  }

  /** Fetching twice with the flag unchanged leaves the same four strings. */
  method FetchTwice(vm: DoTryCatchViewModel) returns (first: seq<string>, second: seq<string>)
    modifies vm
    ensures first == second == vm.Titles() == Expected(vm.manager.isActive)
  {
    vm.FetchAllTitles();
    first := vm.Titles();
    vm.FetchAllTitles();
    second := vm.Titles();
  }
}
