/**
 * The list page: the records of the current page, the pagination record, the
 * search term, the form's open state and the record being edited. Every
 * backend call is split into the step that issues the request (a returned
 * value) and the step that receives its response (a parameter).
 */
module Home {
  import opened Wrappers
  import opened Types
  import HumanBeingTable
  import HumanBeingForm

  const DefaultPageSize := 10

  /** A request for one page of records: page index, page size and optional name filter. */
  datatype ListRequest = ListRequest(page: int, size: int, search: Option<string>)

  /** The update body: the form values with the edited record's id added. */
  datatype UpdatePayload = UpdatePayload(data: HumanBeingForm.FormValues, id: int)

  /** The single-record calls the page makes. */
  datatype Mutation =
    | CreateCall(data: HumanBeingForm.FormValues)
    | UpdateCall(id: int, payload: UpdatePayload)
    | DeleteCall(id: int)

  /** The search parameter of a list request: left out when the term is empty. */
  function SearchParameter(searchTerm: string): (search: Option<string>)
    ensures search.None? <==> searchTerm == ""
    ensures search.Some? ==> search.value == searchTerm
  {
    if searchTerm == "" then None else Some(searchTerm)
  }

  class HomePage {
    var humanBeings: seq<HumanBeing>
    var pagination: HumanBeingTable.PaginationInfo
    var searchTerm: string
    var isFormOpen: bool
    var editingHuman: Option<HumanBeing>
    var loading: bool

    /** The page size is never changed by any handler. */
    ghost predicate Valid()
      reads this
    {
      pagination.size == DefaultPageSize
    }

    constructor ()
      ensures Valid()
      ensures humanBeings == []
      ensures pagination == HumanBeingTable.PaginationInfo(0, DefaultPageSize, 0)
      ensures searchTerm == "" && !isFormOpen && editingHuman == None && !loading
    {
      humanBeings := [];
      pagination := HumanBeingTable.PaginationInfo(0, DefaultPageSize, 0);
      searchTerm := "";
      isFormOpen := false;
      editingHuman := None;
      loading := false;
    }

    /** `loadHumanBeings(page)` up to the `await`: also the table's `onPageChange`. */
    method BeginLoad(page: int) returns (request: ListRequest)
      requires Valid()
      modifies this`loading
      ensures Valid() && loading
      ensures request == ListRequest(page, DefaultPageSize, SearchParameter(searchTerm))
    {
      loading := true;
      request := ListRequest(page, pagination.size, SearchParameter(searchTerm));
    }

    /** The response arrived: the backend's page replaces the list, page index and total. */
    method LoadSucceeded(response: PaginatedResponse<HumanBeing>)
      requires Valid()
      modifies this`humanBeings, this`pagination, this`loading
      ensures Valid() && !loading
      ensures humanBeings == response.content
      ensures pagination == old(pagination).(page := response.number, total := response.totalElements)
    {
      humanBeings := response.content;
      pagination := pagination.(page := response.number, total := response.totalElements);
      loading := false;
    }

    /** The request failed: only the loading flag is cleared. */
    method LoadFailed()
      requires Valid()
      modifies this`loading
      ensures Valid() && !loading
    {
      loading := false;
    }

    /**
     * The search box changed. The effect on `[searchTerm]` runs only when the value
     * differs from the previous one, and then loads page 0 with the new term.
     */
    method ChangeSearchTerm(term: string) returns (request: Option<ListRequest>)
      requires Valid()
      modifies this`searchTerm, this`loading
      ensures Valid() && searchTerm == term
      ensures term == old(searchTerm) ==> request.None? && loading == old(loading)
      ensures term != old(searchTerm) ==>
        loading && request == Some(ListRequest(0, DefaultPageSize, SearchParameter(term)))
    {
      var previous := searchTerm;
      searchTerm := term;
      if term != previous {
        var r := BeginLoad(0);
        request := Some(r);
      } else {
        request := None;
      }
    }

    /** `handleCreate` up to the `await`: the call only; state changes wait for the answer. */
    method HandleCreate(data: HumanBeingForm.FormValues) returns (call: Mutation)
      ensures call.CreateCall? && call.data == data
    {
      call := CreateCall(data);
    }

    /** `handleUpdate` up to the `await`: nothing without an edited record, else its id on path and payload. */
    method HandleUpdate(data: HumanBeingForm.FormValues) returns (call: Option<Mutation>)
      ensures call.None? <==> editingHuman.None?
      ensures call.Some? ==> call.value == UpdateCall(editingHuman.value.id, UpdatePayload(data, editingHuman.value.id))
    {
      if editingHuman.None? {
        call := None;
      } else {
        call := Some(UpdateCall(editingHuman.value.id, UpdatePayload(data, editingHuman.value.id)));
      }
    }

    /** The form's submit handler: update while a record is edited, create otherwise; the caption agrees. */
    method Submit(data: HumanBeingForm.FormValues) returns (call: Option<Mutation>)
      ensures call.Some?
      ensures call.value.UpdateCall? <==> editingHuman.Some?
      ensures call.value.CreateCall? <==> editingHuman.None?
      ensures HumanBeingForm.SubmitLabel(FormInitialData()) == "Update" <==> call.value.UpdateCall?
      ensures call.value.UpdateCall? ==> call.value == UpdateCall(editingHuman.value.id, UpdatePayload(data, editingHuman.value.id))
      ensures call.value.CreateCall? ==> call.value.data == data
    {
      if editingHuman.Some? {
        call := HandleUpdate(data);
      } else {
        var c := HandleCreate(data);
        call := Some(c);
      }
    }

    /** The create call succeeded: close the form and reload page 0. */
    method CreateSucceeded() returns (request: ListRequest)
      requires Valid()
      modifies this`isFormOpen, this`loading
      ensures Valid() && !isFormOpen && loading
      ensures request == ListRequest(0, DefaultPageSize, SearchParameter(searchTerm))
    {
      isFormOpen := false;
      request := BeginLoad(0);
    }

    /** The update call succeeded: close the form, forget the record, reload page 0. */
    method UpdateSucceeded() returns (request: ListRequest)
      requires Valid()
      modifies this`isFormOpen, this`editingHuman, this`loading
      ensures Valid() && !isFormOpen && editingHuman.None? && loading
      ensures request == ListRequest(0, DefaultPageSize, SearchParameter(searchTerm))
    {
      isFormOpen := false;
      editingHuman := None;
      request := BeginLoad(0);
    }

    /** `handleDelete(id)`: the call is made only when the user confirms. */
    method HandleDelete(id: int, confirmed: bool) returns (call: Option<Mutation>)
      ensures call.Some? <==> confirmed
      ensures call.Some? ==> call.value == DeleteCall(id)
    {
      call := if confirmed then Some(DeleteCall(id)) else None;
    }

    /** The delete call succeeded: reload page 0. */
    method DeleteSucceeded() returns (request: ListRequest)
      requires Valid()
      modifies this`loading
      ensures Valid() && loading
      ensures request == ListRequest(0, DefaultPageSize, SearchParameter(searchTerm))
    {
      request := BeginLoad(0);
    }

    /** Editing a record: remember it and open the form. */
    method Edit(human: HumanBeing)
      modifies this`editingHuman, this`isFormOpen
      ensures editingHuman == Some(human) && isFormOpen
    {
      editingHuman := Some(human);
      isFormOpen := true;
    }

    /** The "Add Human Being" button. */
    method Add()
      modifies this`editingHuman, this`isFormOpen
      ensures editingHuman == None && isFormOpen
    {
      editingHuman := None;
      isFormOpen := true;
    }

    /** The modal's `onClose`. */
    method CloseModal()
      modifies this`editingHuman, this`isFormOpen
      ensures editingHuman == None && !isFormOpen
    {
      isFormOpen := false;
      editingHuman := None;
    }

    /** The form's `onCancel`: the same two updates as closing the modal. */
    method CancelForm()
      modifies this`editingHuman, this`isFormOpen
      ensures editingHuman == None && !isFormOpen
    {
      CloseModal();
    }

    /** The record the form starts from: the one being edited, if any. */
    function FormInitialData(): Option<HumanBeing>
      reads this
    {
      editingHuman
    }

    /** The modal's title. */
    function ModalTitle(): (title: string)
      reads this
      ensures title == "Edit Human Being" <==> editingHuman.Some?
      ensures title == "Create Human Being" <==> editingHuman.None?
    {
      if editingHuman.Some? then "Edit Human Being" else "Create Human Being"
    }

    /** What the table is given. */
    function Table(): (view: HumanBeingTable.TableView)
      requires Valid()
      reads this
    {
      HumanBeingTable.Render(humanBeings, loading, Some(pagination), true)
    }
  }

  /**
   * A session as a caller sees it through the contracts: 25 records load, the
   * third page is shown, a record on it is edited, and the reload after the
   * update asks for page 0 again.
   */
  method EditFromThirdPage(first: seq<HumanBeing>, third: seq<HumanBeing>, human: HumanBeing,
                           data: HumanBeingForm.FormValues)
    requires |first| == 10 && |third| == 5
  {
    var home := new HomePage();
    var r0 := home.BeginLoad(0);
    assert r0 == ListRequest(0, 10, None);
    home.LoadSucceeded(PaginatedResponse(first, 25, 3, 10, 0));
    assert home.pagination == HumanBeingTable.PaginationInfo(0, 10, 25);
    HumanBeingTable.TwentyFiveRecordsScenario();
    var view := home.Table();
    assert view.Rows? && view.controls.Some? && view.controls.value.prevDisabled;
    var r2 := home.BeginLoad(2);
    home.LoadSucceeded(PaginatedResponse(third, 25, 3, 10, 2));
    assert home.pagination.page == 2 && !home.loading;
    assert HumanBeingTable.NextDisabled(home.pagination.page, HumanBeingTable.TotalPages(Some(home.pagination)));
    home.Edit(human);
    assert home.ModalTitle() == "Edit Human Being";
    var call := home.Submit(data);
    assert call == Some(UpdateCall(human.id, UpdatePayload(data, human.id)));
    var reload := home.UpdateSucceeded();
    assert reload.page == 0 && home.pagination.page == 2;
    assert !home.isFormOpen && home.editingHuman == None;
  }
}
