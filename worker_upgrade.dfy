/**
 * The two workers use differently named buckets, so whichever activates
 * last deletes the other's precache.
 */
module WorkerUpgrade {
  import opened CacheStorage
  import ServiceWorker
  import LegacyServiceWorker

  /** Activating the current worker over storage the legacy worker filled leaves only the current bucket. */
  method UpgradeFromLegacy(caches: Caches, origin: string, net: string -> NetResult)
    requires caches.Valid()
    modifies caches
    ensures caches.Valid()
    ensures LegacyServiceWorker.CacheName !in caches.buckets
    ensures caches.buckets.Keys == {ServiceWorker.CacheName}
  {
    var _ := LegacyServiceWorker.Install(caches, origin, net);
    var _ := ServiceWorker.Install(caches, origin, net);
    var _ := ServiceWorker.Activate(caches);
  }

  /** Activating the legacy worker deletes the current worker's bucket in the same way. */
  method DowngradeToLegacy(caches: Caches, origin: string, net: string -> NetResult)
    requires caches.Valid()
    modifies caches
    ensures caches.Valid()
    ensures ServiceWorker.CacheName !in caches.buckets
    ensures caches.buckets.Keys == {LegacyServiceWorker.CacheName}
  {
    var _ := ServiceWorker.Install(caches, origin, net);
    var _ := LegacyServiceWorker.Install(caches, origin, net);
    var _ := LegacyServiceWorker.Activate(caches);
  }
}
