/**
 * The browser the client runs in, reduced to what the client logic touches: the `localStorage`
 * entries, the last value assigned directly to `window.location.href` (a full page load), and a
 * log of the effects it issued in order (storage writes, toasts, router navigations, location
 * assignments, query refetches). Router navigations change the address through the History API;
 * here they are only logged, and `href` keeps the last direct assignment.
 */
module Env {

  datatype ToastKind = SuccessToast | ErrorToast

  datatype Effect =
    | StorageSet(key: string, value: string)
    | StorageRemove(key: string)
    | Toast(kind: ToastKind, text: string)
    | Navigate(to: string, replace: bool)
    | NavigateSearch(search: map<string, string>, replace: bool)
    | AssignHref(href: string)
    | Refetch

  class Browser {
    var storage: map<string, string>
    /** The target of the last `window.location.href = …` assignment. */
    var href: string
    var log: seq<Effect>

    constructor (storage0: map<string, string>, href0: string)
      ensures storage == storage0 && href == href0 && log == []
    {
      storage := storage0;
      href := href0;
      log := [];
    }

    /** Raises a toast (`toast.success` / `toast.error`). */
    method ShowToast(kind: ToastKind, text: string)
      modifies this
      ensures storage == old(storage) && href == old(href)
      ensures log == old(log) + [Toast(kind, text)]
    {
      log := log + [Toast(kind, text)];
    }

    /** The router's `navigate(to, { replace })`. */
    method NavigateTo(to: string, replace: bool)
      modifies this
      ensures storage == old(storage) && href == old(href)
      ensures log == old(log) + [Navigate(to, replace)]
    {
      log := log + [Navigate(to, replace)];
    }

    /** The router's `navigate({ search }, { replace })`: stay on the page with new query parameters. */
    method NavigateToSearch(search: map<string, string>, replace: bool)
      modifies this
      ensures storage == old(storage) && href == old(href)
      ensures log == old(log) + [NavigateSearch(search, replace)]
    {
      log := log + [NavigateSearch(search, replace)];
    }

    /** React-query's `refetch()` of the current list query. */
    method RequestRefetch()
      modifies this
      ensures storage == old(storage) && href == old(href)
      ensures log == old(log) + [Refetch]
    {
      log := log + [Refetch];
    }
  }
}
